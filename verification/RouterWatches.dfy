/** When two router pay-ins watch the same invoice (src/payins/payins.service.ts). */
module RouterWatches {
  import opened Common
  import opened Keccak
  import opened ChainScan
  import opened PayInLedger
  import opened PayInCreation
  import opened CreationTheorems
  import opened CreationReplays
  import PaymentRouter
  import RouterTheorems

  /** Every stored router pay-in watches the invoice of some reference. */
  lemma StoredReference(cfg: Config, es: seq<Event>, a: Id) returns (ref: Word)
    requires a in Exec(cfg, INITIAL, es).rows && !Derived(Exec(cfg, INITIAL, es).rows[a])
    ensures WatchesInvoice(cfg, Exec(cfg, INITIAL, es).rows[a], ref)
  {
    RunKeepsResults(cfg, es);
    var p := Exec(cfg, INITIAL, es).rows[a];
    assert RecordOk(cfg, p);
    ref :| WatchesInvoice(cfg, p, ref);
  }

  /** Two router pay-ins watch the same invoice exactly when they agree on reference,
      token and amount; then every payment counts for both, and otherwise none does. */
  lemma RouterPayInsShareWatchIff(cfg: Config, p: PayIn, q: PayIn, pr: Word, qr: Word)
    requires WatchesInvoice(cfg, p, pr) && WatchesInvoice(cfg, q, qr)
    ensures p.terms.watch == q.terms.watch <==>
            pr == qr && p.terms.watch.token == q.terms.watch.token && p.terms.expectedAtomic == q.terms.expectedAtomic
    ensures p.terms.watch == q.terms.watch ==> forall l: Log :: Matches(p.terms.watch, l) <==> Matches(q.terms.watch, l)
    ensures p.terms.watch != q.terms.watch ==> forall l: Log :: !(Matches(p.terms.watch, l) && Matches(q.terms.watch, l))
  {
    RouterTheorems.IdsAreInjective(pr, p.terms.watch.token, p.terms.expectedAtomic, qr, q.terms.watch.token, q.terms.expectedAtomic, 0, 0);
  }

  /** The default reference leaves the client out: two requests without a reference of
      their own share an invoice exactly when external id, token and amount agree,
      whoever asks. */
  lemma DefaultInvoicesCoincideIff(a: Request, b: Request, router: Address)
    requires a.invoiceRef.None? && b.invoiceRef.None?
    ensures InvoiceWatch(a, router) == InvoiceWatch(b, router) <==>
            a.externalId == b.externalId && a.token == b.token && a.expectedAtomic == b.expectedAtomic
  {
    RouterTheorems.IdsAreInjective(KeccakText(a.externalId), a.token, a.expectedAtomic,
                                   KeccakText(b.externalId), b.token, b.expectedAtomic, 0, 0);
  }

  // ---- Two clients, one invoice --------------------------------------------

  function Invoicing(client: string): Request {
    Request(Some(client), "E1", None, PaymentRouterMode, None, 1, 5, None)
  }

  /** A router-mode creation, up to its insert. */
  lemma ToRouterInsert(cfg: Config, es: seq<Event>, tid: TaskId, req: Request) returns (longer: seq<Event>)
    requires cfg.router.Some? && req.mode == PaymentRouterMode && req.expectedAtomic > 0 && !HasKey(req) && ValidClient(req.clientId)
    requires tid !in Exec(cfg, INITIAL, es).tasks
    ensures var s := Exec(cfg, INITIAL, es);
            Exec(cfg, INITIAL, longer) == s.(tasks := s.tasks[tid := Insert(req, NewPayIn(cfg, req, -1, 1))])
  {
    var s := Exec(cfg, INITIAL, es);
    Begun(cfg, es, tid, req);
    longer := es + [Start(tid, req)];
    Moved(cfg, longer, tid, Head(1), Effect(s.rows, s.keys, s.counter, Insert(req, NewPayIn(cfg, req, -1, 1))));
    longer := longer + [Step(tid, Head(1))];
  }

  /** Two clients that happen to use one external id for the same token and amount wait
      for the same invoice, which can be paid once: that payment counts for both. */
  lemma TwoClientsMayShareAnInvoice(cfg: Config, hash: nat, block: nat, payer: Address, treasury: Address) returns (es: seq<Event>, paid: Log)
    requires cfg.router.Some?
    ensures var rows := Exec(cfg, INITIAL, es).rows;
            && 10 in rows && 20 in rows && rows[10].terms.clientId == Some("c") && rows[20].terms.clientId == Some("d")
            && rows[10].terms.watch == rows[20].terms.watch
            && Matches(rows[10].terms.watch, paid) && Matches(rows[20].terms.watch, paid)
            && ToTransfer(paid).amountAtomic == rows[10].terms.expectedAtomic == rows[20].terms.expectedAtomic
  {
    var (first, second) := (Invoicing("c"), Invoicing("d"));
    var (p, q) := (NewPayIn(cfg, first, -1, 1), NewPayIn(cfg, second, -1, 1));
    es := ToRouterInsert(cfg, [], 0, first);
    es := ToAnswer(cfg, es, 0, first, p, 10);
    es := ToRouterInsert(cfg, es, 1, second);
    assert "c"[0] != "d"[0];
    es := ToAnswer(cfg, es, 1, second, q, 20);
    paid := Log(hash, 0, block, InvoicePaid(cfg.router.value, p.terms.watch.invoiceId, payer, 1, 5, treasury));
  }
}
