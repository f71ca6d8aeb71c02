/** One pay-in under racing reconciles, acceptances and sweeps, while the chain
    grows (src/payins/payins.service.ts).

    A pay-in's operations read and write only its own row, so the machine holds
    one row and any number of tasks on it. Every `await` is a yield point. As in
    PayoutProtocol, an event that does not fit the state changes nothing. */
module PayInProtocol {
  import opened Common
  import opened ChainScan
  import opened PayInLedger

  type TaskId = nat

  datatype Config = Config(minConfirmations: nat, lookback: nat)

  datatype Hook = DetectedHook | ConfirmedHook

  datatype Fault = Clean | ErrorBefore | ErrorAfter

  datatype Task =
    | Done
    // reconcilePayIn
    | RecRead
    | RecHead(snap: PayIn)
    | RecScan(snap: PayIn, head: nat, next: nat, found: seq<Transfer>)
    | RecWrite(snap: PayIn, head: nat, transfers: seq<Transfer>, now: Time)
    // audit, then the webhooks still to enqueue
    | Notify(audited: bool, hooks: seq<Hook>)
    // acceptPayIn
    | AccRead
    | AccWrite(snap: PayIn)
    // sweepPayIn
    | SweepRead
    | SweepSend
    | SweepWrite(d: PayInPatch)
    | SweepAudit
    | SweepFail
    | SweepSkip

  datatype Operation = Reconcile | Accept | Sweep

  datatype Input =
    | Go(fault: Fault, now: Time)
    | Head(head: nat)
    | Swept(hash: TxHash, amount: nat, confirmed: bool, at: Time)
    // sweepDerivedPayIn throws, before or after the network took the transfer
    | SendError(reached: bool)
    | Throw

  datatype Event =
    | Mine(block: seq<Log>)
    | Start(tid: TaskId, op: Operation)
    | Step(tid: TaskId, input: Input)

  /** `lost` records that a webhook due to be enqueued was not: the audit or the
      enqueue failed, or a database error hid that the row had been updated. */
  datatype State = State(row: PayIn, logs: seq<Log>, head: nat, tasks: map<TaskId, Task>, outbox: seq<Hook>, lost: bool)

  // ---- Classification ------------------------------------------------------

  function Amounts(ts: seq<Transfer>): seq<nat> {
    seq(|ts|, i requires 0 <= i < |ts| => ts[i].amountAtomic)
  }

  function Total(ts: seq<Transfer>): nat {
    Sum(Amounts(ts))
  }

  /** The latest transfer block, -1 when there is none. */
  function Latest(ts: seq<Transfer>): int {
    if |ts| == 0 then -1
    else
      var (m, b) := (Latest(ts[..|ts| - 1]), ts[|ts| - 1].block);
      if b > m then b else m
  }

  predicate EnoughConfirmations(cfg: Config, ts: seq<Transfer>, head: nat) {
    ts != [] && head > Latest(ts) && head - Latest(ts) >= cfg.minConfirmations
  }

  predicate IsExpired(t: Terms, now: Time) {
    t.expiresAt.Some? && t.expiresAt.value < now
  }

  function Classify(cfg: Config, t: Terms, ts: seq<Transfer>, head: nat, now: Time): Status {
    if Total(ts) == 0 then (if IsExpired(t, now) then Expired else Pending)
    else if Total(ts) < t.expectedAtomic then Underpaid
    else if Total(ts) > t.expectedAtomic then Overpaid
    else if EnoughConfirmations(cfg, ts, head) then Confirmed
    else Detected
  }

  predicate FirstDetection(snap: PayIn, ts: seq<Transfer>) {
    |ts| > 0 && snap.detectedAt.None?
  }

  predicate NewConfirmation(snap: PayIn, status: Status) {
    status == Confirmed && snap.confirmedAt.None?
  }

  /** The unguarded write of a reconcile, computed from its snapshot. */
  function ReconcilePatch(cfg: Config, snap: PayIn, head: nat, ts: seq<Transfer>, now: Time): PayInPatch {
    var status := Classify(cfg, snap.terms, ts, head, now);
    NoPatch.(status := Some(status), receivedAtomic := Some(Total(ts)), transfers := Some(ts), lastScanned := Some(Some(head)),
             detectedAt := Some(if FirstDetection(snap, ts) then Some(now) else snap.detectedAt),
             confirmedAt := Some(if NewConfirmation(snap, status) then Some(now) else snap.confirmedAt))
  }

  function ReconcileHooks(cfg: Config, snap: PayIn, head: nat, ts: seq<Transfer>, now: Time): seq<Hook> {
    (if FirstDetection(snap, ts) then [DetectedHook] else [])
    + (if NewConfirmation(snap, Classify(cfg, snap.terms, ts, head, now)) then [ConfirmedHook] else [])
  }

  const ACCEPTABLE: Guard := Guard(Some({Underpaid, Overpaid}), None)
  const SWEEPABLE: Guard := Guard(None, Some({SweepPending, SweepFailed}))

  function AcceptPatch(snap: PayIn, now: Time): PayInPatch {
    NoPatch.(status := Some(Confirmed), acceptedAt := Some(Some(now)),
             confirmedAt := Some(if snap.confirmedAt.Some? then snap.confirmedAt else Some(now)))
  }

  function SweptPatch(hash: TxHash, amount: nat, confirmed: bool, at: Time): PayInPatch {
    NoPatch.(sweepStatus := Some(if confirmed then SweepConfirmed else SweepBroadcasted), sweepHash := Some(Some(hash)),
             sweptAtomic := Some(amount), sweptAt := Some(Some(at)), sweepFailure := Some(None))
  }

  function SweepFailPatch(): PayInPatch {
    NoPatch.(sweepStatus := Some(SweepFailed), sweepFailure := Some(Some("sweep failure")))
  }

  function SkipPatch(): PayInPatch {
    NoPatch.(sweepStatus := Some(NotRequired), sweepFailure := Some(None))
  }

  function Write(p: PayIn, d: PayInPatch, g: Guard, fault: Fault): PayIn {
    if fault.ErrorBefore? then p else Updated(p, d, g)
  }

  // ---- Steps ---------------------------------------------------------------

  /** One task step: the row after it, the task after it, what was enqueued, and
      whether an enqueue was lost. */
  datatype Effect = Effect(row: PayIn, task: Task, enqueued: seq<Hook>, lost: bool)

  function Stay(s: State, t: Task): Effect {
    Effect(s.row, t, [], false)
  }

  function ScanStart(cfg: Config, snap: PayIn, head: nat): nat {
    EffectiveFrom(ScanFromBlock(snap.terms.startBlock, snap.lastScanned), head, cfg.lookback)
  }

  function ReconcileStep(cfg: Config, s: State, t: Task, i: Input): Effect
    requires t.RecRead? || t.RecHead? || t.RecScan? || t.RecWrite?
  {
    match t
    case RecRead => Stay(s, if s.row.status == Confirmed then Done else RecHead(s.row))
    case RecHead(snap) =>
      if i.Throw? then Stay(s, Done)
      else if i.Head? && i.head <= s.head then Stay(s, RecScan(snap, i.head, ScanStart(cfg, snap, i.head), []))
      else Stay(s, t)
    case RecScan(snap, head, next, found) =>
      if i.Throw? then Stay(s, Done)
      else if !i.Go? then Stay(s, t)
      else if next <= head then
        var to := if next + PAGE_BLOCKS - 1 < head then next + PAGE_BLOCKS - 1 else head;
        Stay(s, RecScan(snap, head, to + 1, found + Between(Matching(s.logs, snap.terms.watch), next, to)))
      else Stay(s, RecWrite(snap, head, Merged(snap.transfers + found), i.now))
    case RecWrite(snap, head, ts, now) =>
      if !i.Go? then Stay(s, t)
      else
        var row := Write(s.row, ReconcilePatch(cfg, snap, head, ts, now), UNGUARDED, i.fault);
        var hooks := ReconcileHooks(cfg, snap, head, ts, now);
        if i.fault.Clean? then Effect(row, Notify(false, hooks), [], false)
        else Effect(row, Done, [], i.fault.ErrorAfter? && hooks != [])
  }

  function AcceptStep(s: State, t: Task, i: Input): Effect
    requires t.AccRead? || t.AccWrite?
  {
    if t.AccRead? then Stay(s, AccWrite(s.row))
    else if !i.Go? then Stay(s, t)
    else
      var (row, hit) := (Write(s.row, AcceptPatch(t.snap, i.now), ACCEPTABLE, i.fault), Allows(ACCEPTABLE, s.row));
      if i.fault.Clean? then Effect(row, if hit then Notify(false, [ConfirmedHook]) else Done, [], false)
      else Effect(row, Done, [], i.fault.ErrorAfter? && hit)
  }

  /** A failed audit ends the request; a failed enqueue is logged and swallowed. A
      pay-in without a client enqueues nothing. */
  function NotifyStep(s: State, t: Task, i: Input): Effect
    requires t.Notify?
  {
    if !i.Go? then Stay(s, t)
    else if !t.audited then
      if i.fault.Clean? then Stay(s, Notify(true, t.hooks)) else Effect(s.row, Done, [], t.hooks != [])
    else if t.hooks == [] then Stay(s, Done)
    else
      var sent := if s.row.terms.clientId.None? || i.fault.ErrorBefore? then [] else [t.hooks[0]];
      Effect(s.row, Notify(true, t.hooks[1..]), sent, s.row.terms.clientId.Some? && i.fault.ErrorBefore?)
  }

  function SweepStep(s: State, t: Task, i: Input): Effect
    requires t.SweepRead? || t.SweepSend? || t.SweepWrite? || t.SweepAudit? || t.SweepFail? || t.SweepSkip?
  {
    match t
    case SweepRead =>
      if s.row.terms.mode == PaymentRouterMode then Stay(s, SweepSkip)
      else if s.row.sweepStatus in {SweepBroadcasted, SweepConfirmed} then Stay(s, Done)
      else Stay(s, SweepSend)
    case SweepSend =>
      if i.Swept? then Stay(s, SweepWrite(SweptPatch(i.hash, i.amount, i.confirmed, i.at)))
      else if i.SendError? then Stay(s, SweepFail)
      else Stay(s, t)
    case SweepWrite(d) =>
      if !i.Go? then Stay(s, t)
      else Effect(Write(s.row, d, SWEEPABLE, i.fault), if i.fault.Clean? then SweepAudit else SweepFail, [], false)
    case SweepAudit => Stay(s, if i.Throw? then SweepFail else Done)
    case SweepFail =>
      if !i.Go? then Stay(s, t) else Effect(Write(s.row, SweepFailPatch(), SWEEPABLE, i.fault), Done, [], false)
    case SweepSkip =>
      if !i.Go? then Stay(s, t) else Effect(Write(s.row, SkipPatch(), UNGUARDED, i.fault), Done, [], false)
  }

  function TaskStep(cfg: Config, s: State, t: Task, i: Input): Effect {
    if t.Done? then Stay(s, Done)
    else if t.RecRead? || t.RecHead? || t.RecScan? || t.RecWrite? then ReconcileStep(cfg, s, t, i)
    else if t.AccRead? || t.AccWrite? then AcceptStep(s, t, i)
    else if t.Notify? then NotifyStep(s, t, i)
    else SweepStep(s, t, i)
  }

  /** A block the chain may append: the next height, log identities unused. */
  predicate Appendable(logs: seq<Log>, head: nat, block: seq<Log>) {
    && (forall k :: 0 <= k < |block| ==> block[k].block == head + 1)
    && (forall i, j :: 0 <= i < j < |logs + block| ==>
          (logs + block)[i].hash != (logs + block)[j].hash || (logs + block)[i].logIndex != (logs + block)[j].logIndex)
  }

  function FirstTask(op: Operation): Task {
    match op case Reconcile => RecRead case Accept => AccRead case Sweep => SweepRead
  }

  function Apply(cfg: Config, s: State, e: Event): State {
    match e
    case Mine(block) => if Appendable(s.logs, s.head, block) then s.(logs := s.logs + block, head := s.head + 1) else s
    case Start(tid, op) => if tid in s.tasks then s else s.(tasks := s.tasks[tid := FirstTask(op)])
    case Step(tid, i) =>
      if tid !in s.tasks then s
      else
        var f := TaskStep(cfg, s, s.tasks[tid], i);
        s.(row := f.row, tasks := s.tasks[tid := f.task], outbox := s.outbox + f.enqueued, lost := s.lost || f.lost)
  }

  function Exec(cfg: Config, s: State, es: seq<Event>): State {
    if |es| == 0 then s else Apply(cfg, Exec(cfg, s, es[..|es| - 1]), es[|es| - 1])
  }

  /** createPayIn's record, before anything has happened to it. */
  ghost predicate FreshRow(p: PayIn) {
    && p.status == Pending && p.receivedAtomic == 0 && p.transfers == [] && p.lastScanned.None?
    && p.detectedAt.None? && p.confirmedAt.None? && p.acceptedAt.None?
    && p.sweepStatus == (if p.terms.mode == PaymentRouterMode then NotRequired else SweepPending)
    && p.sweepHash.None? && p.sweptAtomic == 0 && p.sweptAt.None? && p.sweepFailure.None?
    && p.terms.expectedAtomic > 0
  }

  ghost predicate ChainOk(logs: seq<Log>, head: nat) {
    && (forall i, j :: 0 <= i < j < |logs| ==> logs[i].block <= logs[j].block)
    && (forall i :: 0 <= i < |logs| ==> logs[i].block <= head)
    && (forall i, j :: 0 <= i < j < |logs| ==> logs[i].hash != logs[j].hash || logs[i].logIndex != logs[j].logIndex)
  }

  /** A pay-in created at block `startBlock` of some chain, nothing under way. */
  ghost predicate Initial(s: State) {
    && FreshRow(s.row) && ChainOk(s.logs, s.head) && s.row.terms.startBlock <= s.head
    && s.tasks == map[] && s.outbox == [] && !s.lost
  }
}
