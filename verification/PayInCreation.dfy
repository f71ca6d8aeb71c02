/** Creating pay-ins on any number of instances (src/payins/payins.service.ts,
    src/payins/payin-ledger.service.ts, src/database/database.service.ts). */
module PayInCreation {
  import opened Common
  import opened Keccak
  import opened ChainScan
  import opened PayInLedger
  import PaymentRouter

  type TaskId = nat
  type Rows = map<Id, PayIn>
  type Keys = map<string, Id>

  /** `derive` is the HD derivation of deposit addresses. */
  datatype Config = Config(derive: nat -> Address, router: Option<Address>)

  datatype Request = Request(
    clientId: Option<string>, externalId: string, key: Option<string>, mode: Mode, invoiceRef: Option<Word>,
    token: Address, expectedAtomic: nat, expiresAt: Option<Time>)

  // ---- The counter ---------------------------------------------------------

  /** The avasettle_counters row; `None` when migrations have not created it. */
  class Counters {
    var payInIndex: Option<nat>

    constructor ()
      ensures payInIndex == Some(0)
    {
      payInIndex := Some(0);
    }

    /** One UPDATE: increments and returns the old value, or fails without the row. */
    method ClaimNextPayInIndex() returns (r: Option<nat>)
      modifies this
      ensures r == old(payInIndex)
      ensures payInIndex == if r.Some? then Some(r.value + 1) else None
    {
      r := payInIndex;
      if payInIndex.Some? {
        payInIndex := Some(payInIndex.value + 1);
      }
    }
  }

  // ---- The request ---------------------------------------------------------

  function InvoiceWatch(req: Request, router: Address): Watch {
    var ref := if req.invoiceRef.Some? then req.invoiceRef.value else KeccakText(req.externalId);
    Invoice(router, PaymentRouter.ComputeInvoiceId(ref, req.token, req.expectedAtomic), req.token)
  }

  function NewPayIn(cfg: Config, req: Request, index: int, startBlock: nat): PayIn
    requires if req.mode == DerivedAddress then index >= 0 else cfg.router.Some?
  {
    var watch := if req.mode == DerivedAddress then Deposit(req.token, cfg.derive(index)) else InvoiceWatch(req, cfg.router.value);
    PayIn(Terms(req.clientId, req.externalId, req.mode, watch, index, req.expectedAtomic, startBlock, req.expiresAt),
          Pending, 0, [], None, None, None, None,
          if req.mode == DerivedAddress then SweepPending else NotRequired, None, 0, None, None)
  }

  datatype Source = Fresh | ByExternalId | ByKey

  datatype Task =
    | Failed
    | ReadKey(req: Request)
    | FindPrior(req: Request, id: Id)
    | ReadHead(req: Request)
    | ClaimIndex(req: Request, startBlock: nat)
    | Insert(req: Request, record: PayIn)
    | FindExisting(req: Request)
    | StoreKey(req: Request, id: Id)
    | Audit(req: Request, id: Id)
    | Returned(req: Request, id: Id, source: Source)

  datatype Fault = Clean | ErrorBefore | ErrorAfter

  datatype Input = Go(fault: Fault) | Head(head: nat) | NewId(id: Id, fault: Fault) | Found(id: Id) | Throw

  datatype Event =
    | Start(tid: TaskId, req: Request)
    | Step(tid: TaskId, input: Input)
    // any update of an existing pay-in: reconcile, accept, sweep
    | Update(id: Id, patch: PayInPatch, guard: Guard)

  datatype State = State(rows: Rows, keys: Keys, counter: Option<nat>, tasks: map<TaskId, Task>)

  const INITIAL: State := State(map[], map[], Some(0), map[])

  /** One step: the tables after it and the task after it. */
  datatype Effect = Effect(rows: Rows, keys: Keys, counter: Option<nat>, task: Task)

  function Stay(s: State, t: Task): Effect {
    Effect(s.rows, s.keys, s.counter, t)
  }

  /** An empty idempotency key counts as none. */
  predicate HasKey(req: Request) {
    req.key.Some? && req.key.value != ""
  }

  function FullKey(req: Request): string
    requires HasKey(req)
  {
    NamespacedKey(req.clientId, req.key.value)
  }

  /** The synchronous checks before the head is read. */
  function Begin(cfg: Config, req: Request): Task {
    if req.expectedAtomic == 0 || (req.mode == PaymentRouterMode && cfg.router.None?) then Failed else ReadHead(req)
  }

  function KeyStep(cfg: Config, s: State, t: Task, i: Input): Effect
    requires t.ReadKey? || t.FindPrior?
  {
    if i.Throw? then Stay(s, Failed)
    else if t.ReadKey? then
      if HasKey(t.req) && FullKey(t.req) in s.keys then Stay(s, FindPrior(t.req, s.keys[FullKey(t.req)]))
      else Stay(s, Begin(cfg, t.req))
    else if t.id in s.rows then Stay(s, Returned(t.req, t.id, ByKey))
    else Stay(s, Begin(cfg, t.req))
  }

  function ClaimStep(cfg: Config, s: State, t: Task, i: Input): Effect
    requires t.ReadHead? || t.ClaimIndex?
  {
    if i.Throw? then Stay(s, Failed)
    else if t.ReadHead? then
      if !i.Head? then Stay(s, t)
      else if t.req.mode == DerivedAddress then Stay(s, ClaimIndex(t.req, i.head))
      else if cfg.router.Some? then Stay(s, Insert(t.req, NewPayIn(cfg, t.req, -1, i.head)))
      else Stay(s, Failed)
    else if !i.Go? then Stay(s, t)
    else if s.counter.None? || i.fault.ErrorBefore? || t.req.mode != DerivedAddress then Stay(s, Failed)
    else
      var index := s.counter.value;
      Effect(s.rows, s.keys, Some(index + 1),
             if i.fault.Clean? then Insert(t.req, NewPayIn(cfg, t.req, index, t.startBlock)) else Failed)
  }

  function AfterInsert(req: Request, id: Id): Task {
    if HasKey(req) then StoreKey(req, id) else Audit(req, id)
  }

  function InsertStep(s: State, t: Task, i: Input): Effect
    requires t.Insert? || t.FindExisting?
  {
    if t.Insert? then
      if !i.NewId? then Stay(s, t)
      else if i.fault.ErrorBefore? || i.id in s.rows then Stay(s, Failed)
      else if exists k :: k in s.rows && Clashes(s.rows[k], t.record) then
        Stay(s, if i.fault.Clean? then FindExisting(t.req) else Failed)
      else
        Effect(s.rows[i.id := t.record], s.keys, s.counter, if i.fault.Clean? then AfterInsert(t.req, i.id) else Failed)
    else if i.Throw? then Stay(s, Failed)
    else if i.Found? && i.id in s.rows && s.rows[i.id].terms.clientId == t.req.clientId && s.rows[i.id].terms.externalId == t.req.externalId
    then Stay(s, Returned(t.req, i.id, ByExternalId))
    else Stay(s, t)
  }

  function FinishStep(s: State, t: Task, i: Input): Effect
    requires t.StoreKey? || t.Audit?
  {
    if !i.Go? then Stay(s, t)
    else if t.StoreKey? then
      var keys := if i.fault.ErrorBefore? || !HasKey(t.req) || FullKey(t.req) in s.keys then s.keys
                  else s.keys[FullKey(t.req) := t.id];
      Effect(s.rows, keys, s.counter, if i.fault.Clean? then Audit(t.req, t.id) else Failed)
    else Stay(s, if i.fault.Clean? then Returned(t.req, t.id, Fresh) else Failed)
  }

  function TaskStep(cfg: Config, s: State, t: Task, i: Input): Effect {
    if t.ReadKey? || t.FindPrior? then KeyStep(cfg, s, t, i)
    else if t.ReadHead? || t.ClaimIndex? then ClaimStep(cfg, s, t, i)
    else if t.Insert? || t.FindExisting? then InsertStep(s, t, i)
    else if t.StoreKey? || t.Audit? then FinishStep(s, t, i)
    else Stay(s, t)
  }

  function Apply(cfg: Config, s: State, e: Event): State {
    match e
    case Start(tid, req) =>
      if tid in s.tasks || !ValidClient(req.clientId) then s
      else s.(tasks := s.tasks[tid := if HasKey(req) then ReadKey(req) else Begin(cfg, req)])
    case Step(tid, i) =>
      if tid !in s.tasks then s
      else
        var f := TaskStep(cfg, s, s.tasks[tid], i);
        State(f.rows, f.keys, f.counter, s.tasks[tid := f.task])
    case Update(id, d, g) => if id in s.rows then s.(rows := s.rows[id := Updated(s.rows[id], d, g)]) else s
  }

  function Exec(cfg: Config, s: State, es: seq<Event>): State {
    if |es| == 0 then s else Apply(cfg, Exec(cfg, s, es[..|es| - 1]), es[|es| - 1])
  }
}
