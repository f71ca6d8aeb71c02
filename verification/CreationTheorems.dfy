/** Distinct derivation indexes, one pay-in per external id, and faithful replays. */
module CreationTheorems {
  import opened Common
  import opened Keccak
  import opened ChainScan
  import opened PayInLedger
  import opened PayInCreation
  import PaymentRouter
  import Machine = PayInProtocol
  import RouterPayIn
  import PayInScan

  // ---- Derivation indexes --------------------------------------------------

  predicate Derived(p: PayIn) {
    p.terms.mode == DerivedAddress
  }

  function Index(p: PayIn): int {
    p.terms.derivationIndex
  }

  /** An index handed out by the counter. */
  predicate Issued(counter: Option<nat>, p: PayIn) {
    Derived(p) ==> counter.Some? && 0 <= Index(p) < counter.value
  }

  predicate Apart(p: PayIn, q: PayIn) {
    Derived(p) && Derived(q) ==> Index(p) != Index(q)
  }

  /** Stored pay-ins and records about to be inserted carry issued indexes, no two
      of them the same. */
  ghost predicate IndexInv(s: State) {
    && (forall a :: a in s.rows ==> Issued(s.counter, s.rows[a]))
    && (forall a, b :: a in s.rows && b in s.rows && a != b ==> Apart(s.rows[a], s.rows[b]))
    && (forall t :: t in s.tasks && s.tasks[t].Insert? ==> Issued(s.counter, s.tasks[t].record))
    && (forall t, a :: t in s.tasks && s.tasks[t].Insert? && a in s.rows ==> Apart(s.tasks[t].record, s.rows[a]))
    && (forall t, u :: t in s.tasks && u in s.tasks && t != u && s.tasks[t].Insert? && s.tasks[u].Insert? ==>
          Apart(s.tasks[t].record, s.tasks[u].record))
  }

  function Take(s: State, tid: TaskId, f: Effect): State {
    State(f.rows, f.keys, f.counter, s.tasks[tid := f.task])
  }

  /** A step that stores no row and issues no index. */
  ghost predicate Idle(s: State, t: Task, f: Effect) {
    f.rows == s.rows && f.counter == s.counter && (f.task == t || (f.task.Insert? ==> !Derived(f.task.record)))
  }

  ghost predicate Issues(s: State, f: Effect) {
    && f.rows == s.rows && s.counter.Some? && f.counter == Some(s.counter.value + 1)
    && (f.task.Insert? ==> Index(f.task.record) == s.counter.value)
  }

  ghost predicate Stores(s: State, t: Task, i: Input, f: Effect) {
    && t.Insert? && !f.task.Insert? && f.counter == s.counter
    && i.NewId? && i.id !in s.rows && f.rows == s.rows[i.id := t.record]
    && forall k :: k in s.rows ==> !Clashes(s.rows[k], t.record)
  }

  lemma StepShape(cfg: Config, s: State, t: Task, i: Input)
    ensures var f := TaskStep(cfg, s, t, i); Idle(s, t, f) || Issues(s, f) || Stores(s, t, i, f)
  {
  }

  lemma IdleKeepsIndexes(s: State, tid: TaskId, f: Effect)
    requires IndexInv(s) && (tid in s.tasks ==> Idle(s, s.tasks[tid], f))
    requires tid !in s.tasks ==> f.rows == s.rows && f.counter == s.counter && !f.task.Insert?
    ensures IndexInv(Take(s, tid, f))
  {
  }

  lemma IssueKeepsIndexes(s: State, tid: TaskId, f: Effect)
    requires IndexInv(s) && tid in s.tasks && Issues(s, f)
    ensures IndexInv(Take(s, tid, f))
  {
  }

  lemma StoreKeepsIndexes(s: State, tid: TaskId, i: Input, f: Effect)
    requires IndexInv(s) && tid in s.tasks && Stores(s, s.tasks[tid], i, f)
    ensures IndexInv(Take(s, tid, f))
  {
  }

  lemma EventKeepsIndexes(cfg: Config, s: State, e: Event)
    requires IndexInv(s)
    ensures IndexInv(Apply(cfg, s, e))
  {
    if e.Step? && e.tid in s.tasks {
      var (t, f) := (s.tasks[e.tid], TaskStep(cfg, s, s.tasks[e.tid], e.input));
      StepShape(cfg, s, t, e.input);
      if Idle(s, t, f) {
        IdleKeepsIndexes(s, e.tid, f);
      } else if Issues(s, f) {
        IssueKeepsIndexes(s, e.tid, f);
      } else {
        StoreKeepsIndexes(s, e.tid, e.input, f);
      }
    } else if e.Start? {
      StartKeepsIndexes(cfg, s, e);
    }
  }

  lemma StartKeepsIndexes(cfg: Config, s: State, e: Event)
    requires IndexInv(s) && e.Start?
    ensures IndexInv(Apply(cfg, s, e))
  {
    if e.tid !in s.tasks {
      IdleKeepsIndexes(s, e.tid, Stay(s, if HasKey(e.req) then ReadKey(e.req) else Begin(cfg, e.req)));
    }
  }

  lemma {:induction false} RunKeepsIndexes(cfg: Config, es: seq<Event>)
    ensures IndexInv(Exec(cfg, INITIAL, es))
  {
    if |es| > 0 {
      RunKeepsIndexes(cfg, es[..|es| - 1]);
      EventKeepsIndexes(cfg, Exec(cfg, INITIAL, es[..|es| - 1]), es[|es| - 1]);
    }
  }

  /** Stored derived-address pay-ins have pairwise distinct indexes below the counter. */
  lemma DerivationIndexesAreDistinct(cfg: Config, es: seq<Event>, a: Id, b: Id)
    requires var s := Exec(cfg, INITIAL, es); a in s.rows && b in s.rows && a != b && Derived(s.rows[a]) && Derived(s.rows[b])
    ensures var s := Exec(cfg, INITIAL, es);
            s.counter.Some? && 0 <= Index(s.rows[a]) < s.counter.value && Index(s.rows[a]) != Index(s.rows[b])
  {
    RunKeepsIndexes(cfg, es);
    var s := Exec(cfg, INITIAL, es);
    assert Issued(s.counter, s.rows[a]) && Apart(s.rows[a], s.rows[b]);
  }

  // ---- What the tables and the requests know -------------------------------

  /** A router pay-in watches the id the contract binds to its token and amount. */
  ghost predicate WatchesInvoice(cfg: Config, p: PayIn, ref: Word) {
    var w := p.terms.watch;
    && cfg.router.Some? && w.Invoice?
    && w == Invoice(cfg.router.value, PaymentRouter.ComputeInvoiceId(ref, w.token, p.terms.expectedAtomic), w.token)
  }

  ghost predicate RecordOk(cfg: Config, p: PayIn) {
    && ValidClient(p.terms.clientId) && p.terms.expectedAtomic > 0
    && (!Derived(p) ==> exists ref :: WatchesInvoice(cfg, p, ref))
    && (Derived(p) ==> Index(p) >= 0 && p.terms.watch.Deposit? && p.terms.watch.to == cfg.derive(Index(p)))
  }

  predicate Same(req: Request, p: PayIn) {
    p.terms.clientId == req.clientId && p.terms.externalId == req.externalId
  }

  /** The pay-in a key leads to belongs to the client named in the key. */
  ghost predicate KeyOk(rows: Rows, full: string, id: Id) {
    id in rows && UpTo(full, ':') == ClientTag(rows[id].terms.clientId)
  }

  ghost predicate TablesOk(cfg: Config, rows: Rows, keys: Keys) {
    && (forall a :: a in rows ==> RecordOk(cfg, rows[a]))
    && (forall full :: full in keys ==> KeyOk(rows, full, keys[full]))
  }

  ghost predicate TaskOk(cfg: Config, rows: Rows, keys: Keys, t: Task) {
    && (!t.Failed? ==> ValidClient(t.req.clientId))
    && (t.ReadHead? || t.ClaimIndex? ==> t.req.expectedAtomic > 0)
    && (t.Insert? ==> RecordOk(cfg, t.record) && Same(t.req, t.record))
    && (t.FindPrior? ==> HasKey(t.req) && FullKey(t.req) in keys && keys[FullKey(t.req)] == t.id)
    && (t.StoreKey? || t.Audit? ==> t.id in rows && Same(t.req, rows[t.id]))
    && (t.Returned? ==>
          && t.id in rows && t.req.clientId == rows[t.id].terms.clientId
          && (t.source == ByKey ==> HasKey(t.req) && FullKey(t.req) in keys && keys[FullKey(t.req)] == t.id)
          && (t.source != ByKey ==> Same(t.req, rows[t.id])))
  }

  /** Rows stay, with their terms; keys stay, with their pay-in. */
  ghost predicate Grows(rows: Rows, keys: Keys, rows': Rows, keys': Keys) {
    && (forall a :: a in rows ==> a in rows' && rows'[a].terms == rows[a].terms)
    && (forall full :: full in keys ==> full in keys' && keys'[full] == keys[full])
  }

  ghost predicate ResultInv(cfg: Config, s: State) {
    TablesOk(cfg, s.rows, s.keys) && forall t :: t in s.tasks ==> TaskOk(cfg, s.rows, s.keys, s.tasks[t])
  }

  lemma TaskStable(cfg: Config, rows: Rows, keys: Keys, rows': Rows, keys': Keys, t: Task)
    requires TaskOk(cfg, rows, keys, t) && Grows(rows, keys, rows', keys')
    ensures TaskOk(cfg, rows', keys', t)
  {
  }

  lemma KeyStepOk(cfg: Config, s: State, t: Task, i: Input)
    requires (t.ReadKey? || t.FindPrior?) && TaskOk(cfg, s.rows, s.keys, t) && TablesOk(cfg, s.rows, s.keys)
    ensures var f := KeyStep(cfg, s, t, i); f.rows == s.rows && f.keys == s.keys && TaskOk(cfg, s.rows, s.keys, f.task)
  {
    if t.FindPrior? {
      assert KeyOk(s.rows, FullKey(t.req), t.id);
      NamespacedKeyIsInjective(t.req.clientId, t.req.key.value, s.rows[t.id].terms.clientId, "");
      assert RecordOk(cfg, s.rows[t.id]);
    }
  }

  lemma ClaimStepOk(cfg: Config, s: State, t: Task, i: Input)
    requires (t.ReadHead? || t.ClaimIndex?) && TaskOk(cfg, s.rows, s.keys, t)
    ensures var f := ClaimStep(cfg, s, t, i); f.rows == s.rows && f.keys == s.keys && TaskOk(cfg, s.rows, s.keys, f.task)
  {
    var f := ClaimStep(cfg, s, t, i);
    if f.task.Insert? && f.task.req.mode != DerivedAddress {
      var ref := if t.req.invoiceRef.Some? then t.req.invoiceRef.value else KeccakText(t.req.externalId);
      assert WatchesInvoice(cfg, f.task.record, ref);
    }
  }

  lemma StoredRowOk(cfg: Config, rows: Rows, keys: Keys, id: Id, p: PayIn)
    requires TablesOk(cfg, rows, keys) && id !in rows && RecordOk(cfg, p)
    ensures Grows(rows, keys, rows[id := p], keys) && TablesOk(cfg, rows[id := p], keys)
  {
    forall full | full in keys
      ensures KeyOk(rows[id := p], full, keys[full])
    {
      assert KeyOk(rows, full, keys[full]);
    }
  }

  lemma StoredTaskOk(cfg: Config, rows: Rows, keys: Keys, t: Task, id: Id)
    requires t.Insert? && ValidClient(t.req.clientId) && id in rows && Same(t.req, rows[id])
    ensures TaskOk(cfg, rows, keys, AfterInsert(t.req, id)) && TaskOk(cfg, rows, keys, Failed)
  {
  }

  lemma UnstoredTaskOk(cfg: Config, s: State, t: Task, i: Input)
    requires (t.Insert? || t.FindExisting?) && TaskOk(cfg, s.rows, s.keys, t) && InsertStep(s, t, i).rows == s.rows
    requires t.Insert? && i.NewId? && i.id !in s.rows ==> InsertStep(s, t, i).task in {Failed, FindExisting(t.req)}
    ensures InsertStep(s, t, i).keys == s.keys && TaskOk(cfg, s.rows, s.keys, InsertStep(s, t, i).task)
  {
  }

  lemma InsertStepOk(cfg: Config, s: State, t: Task, i: Input)
    requires (t.Insert? || t.FindExisting?) && TaskOk(cfg, s.rows, s.keys, t) && TablesOk(cfg, s.rows, s.keys)
    ensures var f := InsertStep(s, t, i);
            Grows(s.rows, s.keys, f.rows, f.keys) && TablesOk(cfg, f.rows, f.keys) && TaskOk(cfg, f.rows, f.keys, f.task)
  {
    var f := InsertStep(s, t, i);
    if t.Insert? && f.rows != s.rows {
      StoredRowOk(cfg, s.rows, s.keys, i.id, t.record);
      StoredTaskOk(cfg, f.rows, s.keys, t, i.id);
      assert f.task == Failed || f.task == AfterInsert(t.req, i.id);
    } else {
      UnstoredTaskOk(cfg, s, t, i);
    }
  }

  lemma FinishStepOk(cfg: Config, s: State, t: Task, i: Input)
    requires (t.StoreKey? || t.Audit?) && TaskOk(cfg, s.rows, s.keys, t) && TablesOk(cfg, s.rows, s.keys)
    ensures var f := FinishStep(s, t, i);
            Grows(s.rows, s.keys, f.rows, f.keys) && TablesOk(cfg, f.rows, f.keys) && TaskOk(cfg, f.rows, f.keys, f.task)
  {
    if HasKey(t.req) {
      NamespacedKeyIsInjective(t.req.clientId, t.req.key.value, t.req.clientId, "");
    }
  }

  lemma StepOk(cfg: Config, s: State, t: Task, i: Input)
    requires TaskOk(cfg, s.rows, s.keys, t) && TablesOk(cfg, s.rows, s.keys)
    ensures var f := TaskStep(cfg, s, t, i);
            Grows(s.rows, s.keys, f.rows, f.keys) && TablesOk(cfg, f.rows, f.keys) && TaskOk(cfg, f.rows, f.keys, f.task)
  {
    if t.ReadKey? || t.FindPrior? {
      KeyStepOk(cfg, s, t, i);
    } else if t.ReadHead? || t.ClaimIndex? {
      ClaimStepOk(cfg, s, t, i);
    } else if t.Insert? || t.FindExisting? {
      InsertStepOk(cfg, s, t, i);
    } else if t.StoreKey? || t.Audit? {
      FinishStepOk(cfg, s, t, i);
    }
  }

  lemma UpdateGrows(cfg: Config, s: State, id: Id, d: PayInPatch, g: Guard)
    requires id in s.rows && TablesOk(cfg, s.rows, s.keys)
    ensures var rows := s.rows[id := Updated(s.rows[id], d, g)];
            Grows(s.rows, s.keys, rows, s.keys) && TablesOk(cfg, rows, s.keys)
  {
    var rows := s.rows[id := Updated(s.rows[id], d, g)];
    forall full | full in s.keys
      ensures KeyOk(rows, full, s.keys[full])
    {
      assert KeyOk(s.rows, full, s.keys[full]);
    }
    assert RecordOk(cfg, s.rows[id]) && rows[id].terms == s.rows[id].terms;
    if !Derived(s.rows[id]) {
      var ref :| WatchesInvoice(cfg, s.rows[id], ref);
      assert WatchesInvoice(cfg, rows[id], ref);
    }
  }

  lemma TakeKeepsResults(cfg: Config, s: State, tid: TaskId, f: Effect)
    requires ResultInv(cfg, s) && Grows(s.rows, s.keys, f.rows, f.keys)
    requires TablesOk(cfg, f.rows, f.keys) && TaskOk(cfg, f.rows, f.keys, f.task)
    ensures ResultInv(cfg, Take(s, tid, f))
  {
    forall t | t in s.tasks
      ensures TaskOk(cfg, f.rows, f.keys, s.tasks[t])
    {
      TaskStable(cfg, s.rows, s.keys, f.rows, f.keys, s.tasks[t]);
    }
  }

  lemma EventKeepsResults(cfg: Config, s: State, e: Event)
    requires ResultInv(cfg, s)
    ensures ResultInv(cfg, Apply(cfg, s, e))
    ensures Grows(s.rows, s.keys, Apply(cfg, s, e).rows, Apply(cfg, s, e).keys)
  {
    match e
    case Step(tid, i) =>
      if tid in s.tasks {
        StepOk(cfg, s, s.tasks[tid], i);
        TakeKeepsResults(cfg, s, tid, TaskStep(cfg, s, s.tasks[tid], i));
      }
    case Start(tid, req) =>
      if ValidClient(req.clientId) {
        TakeKeepsResults(cfg, s, tid, Stay(s, if HasKey(req) then ReadKey(req) else Begin(cfg, req)));
      }
    case Update(id, d, g) =>
      if id in s.rows {
        UpdateGrows(cfg, s, id, d, g);
        forall t | t in s.tasks
          ensures TaskOk(cfg, Apply(cfg, s, e).rows, s.keys, s.tasks[t])
        {
          TaskStable(cfg, s.rows, s.keys, Apply(cfg, s, e).rows, s.keys, s.tasks[t]);
        }
      }
  }

  lemma {:induction false} RunKeepsResults(cfg: Config, es: seq<Event>)
    ensures ResultInv(cfg, Exec(cfg, INITIAL, es))
  {
    if |es| > 0 {
      RunKeepsResults(cfg, es[..|es| - 1]);
      EventKeepsResults(cfg, Exec(cfg, INITIAL, es[..|es| - 1]), es[|es| - 1]);
    }
  }

  /** With an injective derivation no two stored pay-ins share a deposit address, so
      no transfer can ever count towards two of them. */
  lemma DepositAddressesAreDistinct(cfg: Config, es: seq<Event>, a: Id, b: Id)
    requires forall i: nat, j: nat :: cfg.derive(i) == cfg.derive(j) ==> i == j
    requires var s := Exec(cfg, INITIAL, es); a in s.rows && b in s.rows && a != b && Derived(s.rows[a]) && Derived(s.rows[b])
    ensures var s := Exec(cfg, INITIAL, es);
            && s.rows[a].terms.watch.Deposit? && s.rows[b].terms.watch.Deposit?
            && s.rows[a].terms.watch.to != s.rows[b].terms.watch.to
            && forall l: Log :: !(Matches(s.rows[a].terms.watch, l) && Matches(s.rows[b].terms.watch, l))
  {
    RunKeepsResults(cfg, es);
    DerivationIndexesAreDistinct(cfg, es, a, b);
    var s := Exec(cfg, INITIAL, es);
    assert RecordOk(cfg, s.rows[a]) && RecordOk(cfg, s.rows[b]);
  }

  // ---- One pay-in per external id ------------------------------------------

  ghost predicate OneEach(rows: Rows) {
    forall a, b :: a in rows && b in rows && a != b ==> !Clashes(rows[a], rows[b])
  }

  lemma StoreKeepsOneEach(s: State, t: Task, i: Input, f: Effect)
    requires OneEach(s.rows) && Stores(s, t, i, f)
    ensures OneEach(f.rows)
  {
  }

  lemma {:induction false} RunKeepsOneEach(cfg: Config, es: seq<Event>)
    ensures OneEach(Exec(cfg, INITIAL, es).rows)
  {
    if |es| > 0 {
      var (s, e) := (Exec(cfg, INITIAL, es[..|es| - 1]), es[|es| - 1]);
      RunKeepsOneEach(cfg, es[..|es| - 1]);
      if e.Step? && e.tid in s.tasks {
        var (t, f) := (s.tasks[e.tid], TaskStep(cfg, s, s.tasks[e.tid], e.input));
        StepShape(cfg, s, t, e.input);
        if Stores(s, t, e.input, f) {
          StoreKeepsOneEach(s, t, e.input, f);
        }
      }
    }
  }

  /** Any answer is a stored pay-in of the client that asked, also when it comes from
      an idempotency key, although that lookup does not filter by client. */
  lemma AnswersStayWithinTheClient(cfg: Config, es: seq<Event>, t: TaskId)
    requires var s := Exec(cfg, INITIAL, es); t in s.tasks && s.tasks[t].Returned?
    ensures var s := Exec(cfg, INITIAL, es);
            && s.tasks[t].id in s.rows && s.rows[s.tasks[t].id].terms.clientId == s.tasks[t].req.clientId
            && (s.tasks[t].source != ByKey ==> s.rows[s.tasks[t].id].terms.externalId == s.tasks[t].req.externalId)
  {
    RunKeepsResults(cfg, es);
    var s := Exec(cfg, INITIAL, es);
    assert TaskOk(cfg, s.rows, s.keys, s.tasks[t]);
  }

  lemma {:induction false} ExecConcat(cfg: Config, s: State, a: seq<Event>, b: seq<Event>)
    ensures Exec(cfg, s, a + b) == Exec(cfg, Exec(cfg, s, a), b)
  {
    if |b| == 0 {
      assert a + b == a;
    } else {
      assert (a + b)[..|a + b| - 1] == a + b[..|b| - 1];
      ExecConcat(cfg, s, a, b[..|b| - 1]);
    }
  }

  lemma {:induction false} TablesGrow(cfg: Config, s: State, es: seq<Event>)
    requires ResultInv(cfg, s)
    ensures ResultInv(cfg, Exec(cfg, s, es)) && Grows(s.rows, s.keys, Exec(cfg, s, es).rows, Exec(cfg, s, es).keys)
  {
    if |es| > 0 {
      TablesGrow(cfg, s, es[..|es| - 1]);
      EventKeepsResults(cfg, Exec(cfg, s, es[..|es| - 1]), es[|es| - 1]);
    }
  }

  /** Nothing that happens later, updates included, changes what an idempotency key
      leads to or any fixed column of a pay-in. */
  lemma KeysAndTermsAreWriteOnce(cfg: Config, es: seq<Event>, more: seq<Event>)
    ensures var (s, s') := (Exec(cfg, INITIAL, es), Exec(cfg, INITIAL, es + more));
            && (forall full :: full in s.keys ==> full in s'.keys && s'.keys[full] == s.keys[full])
            && (forall a :: a in s.rows ==> a in s'.rows && s'.rows[a].terms == s.rows[a].terms)
  {
    RunKeepsResults(cfg, es);
    ExecConcat(cfg, INITIAL, es, more);
    TablesGrow(cfg, Exec(cfg, INITIAL, es), more);
  }

  // ---- From creation to collection -----------------------------------------

  /** A record as createPayIn stores it starts the pay-in's own machine. */
  lemma NewPayInIsFresh(cfg: Config, req: Request, index: int, startBlock: nat)
    requires req.expectedAtomic > 0 && if req.mode == DerivedAddress then index >= 0 else cfg.router.Some?
    ensures Machine.FreshRow(NewPayIn(cfg, req, index, startBlock))
  {
  }

  /** End to end: a router pay-in created by any race of requests, then reconciled,
      accepted and swept by any other race while the contract runs, is never
      underpaid or overpaid. */
  lemma CreatedRouterPayInIsNeverMispaid(
    cfg: Config, es: seq<Event>, id: Id, scan: Machine.Config, s: Machine.State, later: seq<Machine.Event>,
    r0: PaymentRouter.State, txs: seq<PaymentRouter.Tx>)
    requires id in Exec(cfg, INITIAL, es).rows && !Derived(Exec(cfg, INITIAL, es).rows[id])
    requires Machine.Initial(s) && s.row.terms == Exec(cfg, INITIAL, es).rows[id].terms && PayInScan.ReadsEverything(scan, s, later)
    requires PaymentRouter.Deployed(r0) && cfg.router == Some(r0.self)
    requires RouterPayIn.InvoiceBodies(Machine.Exec(scan, s, later).logs, r0.self)
             == RouterPayIn.Emitted(PaymentRouter.Run(r0, txs).log, r0.self)
    ensures var p := Machine.Exec(scan, s, later).row;
            && (p.receivedAtomic == 0 || p.receivedAtomic == s.row.terms.expectedAtomic)
            && p.status !in {Underpaid, Overpaid}
  {
    RunKeepsResults(cfg, es);
    var p := Exec(cfg, INITIAL, es).rows[id];
    assert RecordOk(cfg, p);
    var ref :| WatchesInvoice(cfg, p, ref);
    RouterPayIn.RouterPayInIsNeverMispaid(scan, s, later, r0, txs, ref, p.terms.watch.token);
  }
}
