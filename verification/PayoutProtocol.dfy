/** Payout requests racing on shared ledger rows (src/payouts/payouts.service.ts).

    Every `await` in the source is a yield point, so a request is a task that
    advances one atomic step at a time: a step is at most one SQL statement or
    one chain call. An event names a task and what the environment answered
    (a balance, a receipt, a database fault). `Apply` is total: an event that
    does not fit the state changes nothing, so a run is any sequence of events
    at all, and a crashed request is a task that is never stepped again. */
module PayoutProtocol {
  import opened Common
  import opened PayoutLedger

  type TaskId = nat

  datatype Mode = Single | Batch

  /** A claimed leg: the row `UPDATE ... RETURNING` gave back. */
  datatype Leg = Leg(id: Id, rec: Payout)

  /** What an authorization is about, fixed before its first claim. */
  datatype Job = Job(mode: Mode, ctx: Option<string>, requested: seq<Id>, ids: seq<Id>, asset: Asset, total: nat, now: Time)

  /** A database statement may fail before or after it took effect. */
  datatype Fault = Clean | ErrorBefore | ErrorAfter

  /** Where an authorization stands between its first claim and its last write. */
  datatype Phase =
    | Claiming
    | Auditing
    | Balance
    | Allowance
    | Writing
    | Receipt(hash: TxHash)
    | Recording(hash: TxHash, confirmed: bool, rec: set<Id>, fail: set<Id>, caught: bool)

  datatype Task =
    | Done
    // createPayout
    | CreateInsert(fixed: Fixed, execute: bool)
    | CreateFind(clientId: Option<string>, externalId: string)
    // authorizePayout and authorizePayoutBatch
    | AuthRead(id: Id, ctx: Option<string>)
    | AuthReread(id: Id, ctx: Option<string>)
    | BatchRead(requested: seq<Id>, ids: seq<Id>, ctx: Option<string>, got: map<Id, Payout>)
    | BatchBalance(job: Job)
    | Auth(job: Job, legs: seq<Leg>, phase: Phase)
    | Releasing(pending: set<Id>, reason: Option<string>)
    | Failing(pending: set<Id>, submitted: bool)
    // reconcilePayout
    | RecRead(id: Id, ctx: Option<string>)
    | RecChain(id: Id, snap: Payout)
    | RecWrite(id: Id, status: Status, confirmedAt: Option<Time>, failureReason: Option<string>)

  datatype TxStatus = TxPending | TxSuccess(finalized: bool) | TxReverted

  datatype Input =
    | Go(fault: Fault, now: Time)
    | NewId(id: Id, fault: Fault)
    | ReadLeg(id: Id)
    | Amount(amount: nat, now: Time)
    | Throw
    | Wrote(hash: TxHash)
    | WriteError(reached: bool, hash: TxHash)
    | Mined(success: bool)
    | LegWrite(id: Id, fault: Fault)
    | FailWrite(id: Id, fault: Fault)
    | Chain(tx: TxStatus, now: Time)

  datatype Event =
    | StartCreate(tid: TaskId, fixed: Fixed, execute: bool)
    | StartAuthorize(tid: TaskId, id: Id, ctx: Option<string>)
    | StartBatch(tid: TaskId, ids: seq<Id>, ctx: Option<string>)
    | StartReconcile(tid: TaskId, id: Id, ctx: Option<string>)
    | Step(tid: TaskId, input: Input)

  /** A transaction handed to the network: the observable the protocol protects. */
  datatype Submission = Submission(
    task: TaskId, job: Job, recipients: seq<Address>, amounts: seq<nat>, hash: TxHash)

  datatype Config = Config(vaultConfigured: bool, waitForReceipt: bool, maxPayout: map<Asset, nat>)

  datatype State = State(rows: Rows, tasks: map<TaskId, Task>, subs: seq<Submission>)

  /** What one step does: the new table, the task's next point, what it sent. */
  datatype Effect = Effect(rows: Rows, task: Task, sent: seq<Submission>)

  // ---- Vocabulary ----------------------------------------------------------

  function LegIds(legs: seq<Leg>): seq<Id> {
    seq(|legs|, i requires 0 <= i < |legs| => legs[i].id)
  }

  function LegAmounts(legs: seq<Leg>): seq<nat> {
    seq(|legs|, i requires 0 <= i < |legs| => legs[i].rec.fixed.amountAtomic)
  }

  function LegRecipients(legs: seq<Leg>): seq<Address> {
    seq(|legs|, i requires 0 <= i < |legs| => legs[i].rec.fixed.beneficiary)
  }

  function AmountsOf(rows: Rows, ids: seq<Id>): seq<nat>
    requires forall i :: 0 <= i < |ids| ==> ids[i] in rows
  {
    seq(|ids|, i requires 0 <= i < |ids| => rows[ids[i]].fixed.amountAtomic)
  }

  function RecipientsOf(rows: Rows, ids: seq<Id>): seq<Address>
    requires forall i :: 0 <= i < |ids| ==> ids[i] in rows
  {
    seq(|ids|, i requires 0 <= i < |ids| => rows[ids[i]].fixed.beneficiary)
  }

  /** findById with the caller's client filter. */
  predicate Visible(rows: Rows, id: Id, ctx: Option<string>) {
    id in rows && (ctx.Some? ==> rows[id].fixed.clientId == ctx)
  }

  function Write(rows: Rows, id: Id, d: PayoutPatch, guard: Option<set<Status>>, fault: Fault): Rows {
    if fault.ErrorBefore? then rows else Updated(rows, id, d, guard)
  }

  const ONLY_PREPARED: Option<set<Status>> := Some({Prepared})
  const ONLY_AUTHORIZED: Option<set<Status>> := Some({Authorized})

  function ClaimPatch(now: Time): PayoutPatch {
    NoPatch.(status := Some(Authorized), authorizedAt := Some(Some(now)))
  }

  function RecordPatch(hash: TxHash, confirmed: bool, now: Time): PayoutPatch {
    NoPatch.(status := Some(if confirmed then Confirmed else Broadcasted), transactionHash := Some(Some(hash)),
             broadcastedAt := Some(Some(now)), confirmedAt := Some(if confirmed then Some(now) else None),
             failureReason := Some(None))
  }

  function ReleasePatch(reason: Option<string>): PayoutPatch {
    NoPatch.(status := Some(Prepared), failureReason := if reason.Some? then Some(reason) else None)
  }

  function FailPatch(): PayoutPatch {
    NoPatch.(status := Some(Failed), failureReason := Some(Some("broadcast failure")))
  }

  // ---- Steps ---------------------------------------------------------------

  function NewPayout(fixed: Fixed): Payout {
    Payout(fixed, Prepared, None, None, None, None, None)
  }

  function CreateStep(rows: Rows, t: Task, i: Input): Effect
    requires t.CreateInsert? || t.CreateFind?
  {
    if t.CreateFind? then Effect(rows, Done, [])
    else if !i.NewId? then Effect(rows, t, [])
    else if i.fault.ErrorBefore? || i.id in rows then Effect(rows, Done, [])
    else if exists k :: k in rows && Clashes(rows[k], NewPayout(t.fixed))
    then Effect(rows, CreateFind(t.fixed.clientId, t.fixed.externalId), [])
    else
      Effect(rows[i.id := NewPayout(t.fixed)],
             if i.fault.Clean? && t.execute then AuthRead(i.id, t.fixed.clientId) else Done, [])
  }

  /** Reads before the first claim. */
  function ReadStep(rows: Rows, t: Task, i: Input): Effect
    requires t.AuthRead? || t.AuthReread? || t.BatchRead? || t.BatchBalance?
  {
    match t
    case AuthReread(_, _) => Effect(rows, Done, [])
    case AuthRead(id, ctx) =>
      if !i.Go? then Effect(rows, t, [])
      else if !Visible(rows, id, ctx) || rows[id].status in {Broadcasted, Confirmed} then Effect(rows, Done, [])
      else
        var p := rows[id];
        Effect(rows, Auth(Job(Single, ctx, [id], [id], p.fixed.asset, p.fixed.amountAtomic, i.now), [], Claiming), [])
    case BatchRead(requested, ids, ctx, got) =>
      if !i.ReadLeg? || i.id !in ids then Effect(rows, t, [])
      else if !Visible(rows, i.id, ctx) then Effect(rows, Done, [])
      else
        var got' := got[i.id := rows[i.id]];
        if exists k :: 0 <= k < |ids| && ids[k] !in got' then Effect(rows, BatchRead(requested, ids, ctx, got'), [])
        else Effect(rows, BatchChecked(requested, ids, ctx, got'), [])
    case BatchBalance(job) =>
      if i.Amount? then Effect(rows, if i.amount < job.total then Done else Auth(job.(now := i.now), [], Claiming), [])
      else if i.Throw? then Effect(rows, Done, [])
      else Effect(rows, t, [])
  }

  /** The synchronous checks once every leg has been read. */
  function BatchChecked(requested: seq<Id>, ids: seq<Id>, ctx: Option<string>, got: map<Id, Payout>): Task
    requires forall k :: 0 <= k < |ids| ==> ids[k] in got
  {
    if |ids| == 0 then Done
    else
      var asset := got[ids[0]].fixed.asset;
      if exists k :: 0 <= k < |ids| && (got[ids[k]].fixed.asset != asset || got[ids[k]].status != Prepared) then Done
      else BatchBalance(Job(Batch, ctx, requested, ids, asset, Sum(AmountsOf(got, ids)), 0))
  }

  /** One guarded prepared -> authorized claim. A lost claim makes a batch give
      back what it has; a database error in the loop escapes the request as is. */
  function ClaimStep(rows: Rows, t: Task, i: Input): Effect
    requires t.Auth? && t.phase.Claiming? && |t.legs| < |t.job.ids|
  {
    if !i.Go? then Effect(rows, t, [])
    else
      var id := t.job.ids[|t.legs|];
      var rows' := Write(rows, id, ClaimPatch(t.job.now), ONLY_PREPARED, i.fault);
      if !i.fault.Clean? then Effect(rows', Done, [])
      else if !Matches(rows, id, ONLY_PREPARED) then
        Effect(rows', if t.job.mode.Single? then AuthReread(id, t.job.ctx)
                      else Releasing(Elems(LegIds(t.legs)), None), [])
      else
        var legs := t.legs + [Leg(id, rows'[id])];
        Effect(rows', Auth(t.job, legs, if |legs| == |t.job.ids| then Auditing else Claiming), [])
  }

  function Conflict(legs: seq<Leg>): Task {
    Releasing(Elems(LegIds(legs)), Some("conflict"))
  }

  /** From the claim to the network. The only conflicts come from the treasury
      balance and from ensureVaultAllowance, both before writeContract. */
  function SendStep(cfg: Config, tid: TaskId, rows: Rows, t: Task, i: Input): Effect
    requires t.Auth? && !t.phase.Claiming? && !t.phase.Recording? && |t.legs| > 0
  {
    var (job, legs) := (t.job, t.legs);
    var all := Elems(LegIds(legs));
    match t.phase
    case Auditing =>
      if i.Throw? then Effect(rows, Done, [])
      else if !i.Go? then Effect(rows, t, [])
      else Effect(rows, t.(phase := if job.mode.Single? then Balance else Allowance), [])
    case Balance =>
      if i.Throw? then Effect(rows, Failing(all, false), [])
      else if !i.Amount? then Effect(rows, t, [])
      else if i.amount < legs[0].rec.fixed.amountAtomic then Effect(rows, Conflict(legs), [])
      else Effect(rows, t.(phase := if cfg.vaultConfigured then Allowance else Writing), [])
    case Allowance =>
      if i.Throw? then Effect(rows, Failing(all, false), [])
      else if !i.Amount? then Effect(rows, t, [])
      else if i.amount < Sum(LegAmounts(legs)) then Effect(rows, Conflict(legs), [])
      else Effect(rows, t.(phase := Writing), [])
    case Writing =>
      if i.Wrote? then Effect(rows, t.(phase := Receipt(i.hash)), [Sends(tid, t, i.hash)])
      else if i.WriteError? then
        Effect(rows, Failing(all, i.reached), if i.reached then [Sends(tid, t, i.hash)] else [])
      else Effect(rows, t, [])
    case Receipt(hash) =>
      if !cfg.waitForReceipt then
        Effect(rows, if i.Go? then t.(phase := Recording(hash, false, all, {}, false)) else t, [])
      else if i.Mined? then Effect(rows, t.(phase := Recording(hash, i.success, all, {}, false)), [])
      else if i.Throw? then Effect(rows, Failing(all, true), [])
      else Effect(rows, t, [])
  }

  function Sends(tid: TaskId, t: Task, hash: TxHash): Submission
    requires t.Auth?
  {
    Submission(tid, t.job, LegRecipients(t.legs), LegAmounts(t.legs), hash)
  }

  /** The guarded writes after a send. A `Promise.all` leaves its writes in
      flight: they land in any order, and they still land after one of them
      failed and the catch block has started its own. */
  function RecordStep(rows: Rows, t: Task, i: Input): Effect
    requires t.Auth? && t.phase.Recording?
  {
    var all := Elems(LegIds(t.legs));
    var Recording(hash, confirmed, rec, fail, caught) := t.phase;
    if i.LegWrite? && i.id in rec then
      var broke := !i.fault.Clean? && !caught;
      Effect(Write(rows, i.id, RecordPatch(hash, confirmed, t.job.now), ONLY_AUTHORIZED, i.fault),
             t.(phase := Recording(hash, confirmed, rec - {i.id}, if broke then all else fail, caught || broke)), [])
    else if i.Throw? && rec == {} && !caught then
      Effect(rows, t.(phase := Recording(hash, confirmed, rec, all, true)), [])
    else if i.FailWrite? && i.id in fail then
      Effect(Write(rows, i.id, FailPatch(), ONLY_AUTHORIZED, i.fault),
             t.(phase := Recording(hash, confirmed, rec, fail - {i.id}, caught)), [])
    else if i.Go? && rec == {} && fail == {} then Effect(rows, Done, [])
    else Effect(rows, t, [])
  }

  /** Giving legs back (a conflict, or a batch that lost a claim), or failing them. */
  function SettleStep(rows: Rows, t: Task, i: Input): Effect
    requires t.Releasing? || t.Failing?
  {
    if t.Releasing? && i.LegWrite? && i.id in t.pending then
      Effect(Write(rows, i.id, ReleasePatch(t.reason), ONLY_AUTHORIZED, i.fault),
             Releasing(t.pending - {i.id}, t.reason), [])
    else if t.Failing? && i.FailWrite? && i.id in t.pending then
      Effect(Write(rows, i.id, FailPatch(), ONLY_AUTHORIZED, i.fault), Failing(t.pending - {i.id}, t.submitted), [])
    else Effect(rows, t, [])
  }

  /** reconcilePayout's decision, taken on the snapshot it read. */
  function Reconciled(id: Id, snap: Payout, tx: TxStatus, now: Time): Task {
    match tx
    case TxPending => RecWrite(id, snap.status, snap.confirmedAt, snap.failureReason)
    case TxReverted => RecWrite(id, Failed, snap.confirmedAt, Some("Transaction reverted on-chain."))
    case TxSuccess(finalized) =>
      if finalized then RecWrite(id, Confirmed, Some(now), None)
      else RecWrite(id, snap.status, snap.confirmedAt, snap.failureReason)
  }

  /** Read, ask the chain, then write the stale snapshot back without a guard. */
  function ReconcileStep(rows: Rows, t: Task, i: Input): Effect
    requires t.RecRead? || t.RecChain? || t.RecWrite?
  {
    match t
    case RecRead(id, ctx) =>
      if !Visible(rows, id, ctx) || rows[id].transactionHash.None? then Effect(rows, Done, [])
      else Effect(rows, RecChain(id, rows[id]), [])
    case RecChain(id, snap) =>
      if i.Chain? then Effect(rows, Reconciled(id, snap, i.tx, i.now), [])
      else if i.Throw? then Effect(rows, Done, [])
      else Effect(rows, t, [])
    case RecWrite(id, status, confirmedAt, failureReason) =>
      if !i.Go? then Effect(rows, t, [])
      else
        var d := NoPatch.(status := Some(status), confirmedAt := Some(confirmedAt), failureReason := Some(failureReason));
        Effect(Write(rows, id, d, None, i.fault), Done, [])
  }

  function AuthStep(cfg: Config, tid: TaskId, rows: Rows, t: Task, i: Input): Effect
    requires t.Auth?
  {
    if t.phase.Claiming? then
      if |t.legs| < |t.job.ids| then ClaimStep(rows, t, i) else Effect(rows, Done, [])
    else if t.phase.Recording? then RecordStep(rows, t, i)
    else if |t.legs| > 0 then SendStep(cfg, tid, rows, t, i)
    else Effect(rows, Done, [])
  }

  function TaskStep(cfg: Config, tid: TaskId, rows: Rows, t: Task, i: Input): Effect {
    if t.Done? then Effect(rows, t, [])
    else if t.CreateInsert? || t.CreateFind? then CreateStep(rows, t, i)
    else if t.Auth? then AuthStep(cfg, tid, rows, t, i)
    else if t.Releasing? || t.Failing? then SettleStep(rows, t, i)
    else if t.RecRead? || t.RecChain? || t.RecWrite? then ReconcileStep(rows, t, i)
    else ReadStep(rows, t, i)
  }

  /** The task `tid` takes the effect `f`. */
  function Take(s: State, tid: TaskId, f: Effect): State {
    State(f.rows, s.tasks[tid := f.task], s.subs + f.sent)
  }

  /** Where a new request starts, if it gets past the checks before its first await. */
  function Started(cfg: Config, e: Event): Option<Task>
    requires !e.Step?
  {
    match e
    case StartCreate(_, fixed, execute) =>
      var tooBig := fixed.asset in cfg.maxPayout && fixed.amountAtomic > cfg.maxPayout[fixed.asset];
      if fixed.amountAtomic == 0 || tooBig then None else Some(CreateInsert(fixed, execute))
    case StartAuthorize(_, id, ctx) => Some(AuthRead(id, ctx))
    case StartBatch(_, ids, ctx) =>
      if !cfg.vaultConfigured || |ids| == 0 then None else Some(BatchRead(ids, Dedup(ids), ctx, map[]))
    case StartReconcile(_, id, ctx) => Some(RecRead(id, ctx))
  }

  function Apply(cfg: Config, s: State, e: Event): State {
    if e.Step? then
      if e.tid in s.tasks then Take(s, e.tid, TaskStep(cfg, e.tid, s.rows, s.tasks[e.tid], e.input)) else s
    else
      var t := Started(cfg, e);
      if e.tid in s.tasks || t.None? then s else s.(tasks := s.tasks[e.tid := t.value])
  }

  /** A run: any events, in any order. */
  function Exec(cfg: Config, s: State, es: seq<Event>): State {
    if |es| == 0 then s else Apply(cfg, Exec(cfg, s, es[..|es| - 1]), es[|es| - 1])
  }

  const INITIAL: State := State(map[], map[], [])

  /** How often a payout was handed to the network. */
  function Count(subs: seq<Submission>, id: Id): nat {
    if |subs| == 0 then 0
    else Count(subs[..|subs| - 1], id) + multiset(subs[|subs| - 1].job.ids)[id]
  }
}
