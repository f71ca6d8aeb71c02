/** A pay-in collected through the router contract: what the contract guarantees
    about its log, carried through the scan into the stored record. */
module RouterPayIn {
  import opened Common
  import opened Keccak
  import opened ChainScan
  import opened PayInLedger
  import opened PayInProtocol
  import PayInScan
  import Router = PaymentRouter
  import RouterTheorems

  /** The router's payment logs on the chain, in order. */
  function InvoiceBodies(logs: seq<Log>, router: Address): seq<Body> {
    if |logs| == 0 then []
    else
      var (rest, b) := (InvoiceBodies(logs[..|logs| - 1], router), logs[|logs| - 1].body);
      if b.InvoicePaid? && b.router == router then rest + [b] else rest
  }

  /** The same payments as the contract emitted them. */
  function Emitted(log: seq<Router.Event>, router: Address): seq<Body> {
    if |log| == 0 then []
    else
      var (rest, e) := (Emitted(log[..|log| - 1], router), log[|log| - 1]);
      if e.InvoicePaid? then rest + [InvoicePaid(router, e.invoiceId, e.payer, e.token, e.amount, e.treasury)] else rest
  }

  predicate OncePerId(bodies: seq<Body>) {
    forall i, j :: 0 <= i < j < |bodies| && bodies[i].InvoicePaid? && bodies[j].InvoicePaid? ==> bodies[i].invoiceId != bodies[j].invoiceId
  }

  lemma {:induction false} EmittedFrom(log: seq<Router.Event>, router: Address, b: Body)
    requires b in Emitted(log, router)
    ensures b.InvoicePaid?
    ensures exists k :: 0 <= k < |log| && log[k].InvoicePaid? && log[k].invoiceId == b.invoiceId && log[k].token == b.token && log[k].amount == b.amount
  {
    var n := |log| - 1;
    if b in Emitted(log[..n], router) {
      EmittedFrom(log[..n], router, b);
      var k :| 0 <= k < n && log[..n][k].InvoicePaid? && log[..n][k].invoiceId == b.invoiceId && log[..n][k].token == b.token && log[..n][k].amount == b.amount;
      assert log[k] == log[..n][k];
    } else {
      assert log[n].InvoicePaid?;
    }
  }

  lemma {:induction false} EmittedOnce(log: seq<Router.Event>, router: Address)
    requires forall i, j :: 0 <= i < j < |log| && log[i].InvoicePaid? && log[j].InvoicePaid? ==> log[i].invoiceId != log[j].invoiceId
    ensures OncePerId(Emitted(log, router))
  {
    if |log| > 0 {
      var n := |log| - 1;
      EmittedOnce(log[..n], router);
      if log[n].InvoicePaid? {
        forall b | b in Emitted(log[..n], router)
          ensures b.InvoicePaid? && b.invoiceId != log[n].invoiceId
        {
          EmittedFrom(log[..n], router, b);
        }
      }
    }
  }

  lemma {:induction false} NoMatch(logs: seq<Log>, router: Address, id: Word, token: Address)
    requires forall b :: b in InvoiceBodies(logs, router) ==> b.InvoicePaid? && b.invoiceId != id
    ensures Matching(logs, Invoice(router, id, token)) == []
  {
    if |logs| > 0 {
      var n := |logs| - 1;
      var b := logs[n].body;
      assert b.InvoicePaid? && b.router == router ==> b in InvoiceBodies(logs, router);
      assert forall x :: x in InvoiceBodies(logs[..n], router) ==> x in InvoiceBodies(logs, router);
      NoMatch(logs[..n], router, id, token);
    }
  }

  lemma {:induction false} BodiesArePayments(logs: seq<Log>, router: Address)
    ensures forall b :: b in InvoiceBodies(logs, router) ==> b.InvoicePaid?
  {
    if |logs| > 0 {
      BodiesArePayments(logs[..|logs| - 1], router);
    }
  }

  /** The scan for one invoice id finds at most one payment, of the bound amount. */
  lemma {:induction false} AtMostOneMatch(logs: seq<Log>, router: Address, id: Word, token: Address, amount: nat)
    requires OncePerId(InvoiceBodies(logs, router))
    requires forall b :: b in InvoiceBodies(logs, router) && b.InvoicePaid? && b.invoiceId == id && b.token == token ==> b.amount == amount
    ensures Single(logs, Invoice(router, id, token), amount)
  {
    if |logs| > 0 {
      var n := |logs| - 1;
      var (rest, l) := (InvoiceBodies(logs[..n], router), logs[n]);
      assert rest <= InvoiceBodies(logs, router);
      assert forall b :: b in rest ==> b in InvoiceBodies(logs, router);
      AtMostOneMatch(logs[..n], router, id, token, amount);
      if Matches(Invoice(router, id, token), l) {
        assert InvoiceBodies(logs, router) == rest + [l.body] && l.body in InvoiceBodies(logs, router);
        BodiesArePayments(logs[..n], router);
        forall b | b in rest
          ensures b.InvoicePaid? && b.invoiceId != id
        {
          var i :| 0 <= i < |rest| && rest[i] == b;
          assert (rest + [l.body])[i] == b && (rest + [l.body])[|rest|] == l.body;
        }
        NoMatch(logs[..n], router, id, token);
      }
    }
  }

  ghost predicate Single(logs: seq<Log>, w: Watch, amount: nat) {
    var m := Matching(logs, w);
    |m| <= 1 && forall t :: t in m ==> t.amountAtomic == amount
  }

  /** What the contract's own guarantee gives the scan. */
  lemma RouterFeedIsSingle(logs: seq<Log>, r0: Router.State, txs: seq<Router.Tx>, ref: Word, token: Address, amount: nat)
    requires Router.Deployed(r0) && InvoiceBodies(logs, r0.self) == Emitted(Router.Run(r0, txs).log, r0.self)
    ensures Single(logs, Invoice(r0.self, Router.ComputeInvoiceId(ref, token, amount), token), amount)
  {
    var log, id := Router.Run(r0, txs).log, Router.ComputeInvoiceId(ref, token, amount);
    RouterTheorems.EveryRunIsAccountedFor(r0, txs);
    EmittedOnce(log, r0.self);
    forall b | b in InvoiceBodies(logs, r0.self) && b.InvoicePaid? && b.invoiceId == id && b.token == token
      ensures b.amount == amount
    {
      EmittedFrom(log, r0.self, b);
      var k :| 0 <= k < |log| && log[k].InvoicePaid? && log[k].invoiceId == b.invoiceId && log[k].token == b.token && log[k].amount == b.amount;
      BoundAmount(log[k], ref, token, amount);
    }
    AtMostOneMatch(logs, r0.self, id, token, amount);
  }

  lemma BoundAmount(e: Router.Event, ref: Word, token: Address, amount: nat)
    requires e.InvoicePaid? && RouterTheorems.Bound(e) && e.invoiceId == Router.ComputeInvoiceId(ref, token, amount)
    ensures e.amount == amount
  {
    forall d: nat
      ensures e.invoiceId != Router.ComputeInvoiceIdWithExpiry(e.invoiceRef, e.token, e.amount, d)
    {
      RouterTheorems.IdsAreInjective(ref, token, amount, e.invoiceRef, e.token, e.amount, d, d);
    }
    RouterTheorems.IdsAreInjective(e.invoiceRef, e.token, e.amount, ref, token, amount, 0, 0);
  }

  // ---- Through the pay-in machine ------------------------------------------

  lemma {:induction false} MatchingPrefix(logs: seq<Log>, block: seq<Log>, w: Watch)
    ensures Matching(logs, w) <= Matching(logs + block, w)
  {
    if |block| == 0 {
      assert logs + block == logs;
    } else {
      var n := |block| - 1;
      MatchingPrefix(logs, block[..n], w);
      assert (logs + block)[..|logs + block| - 1] == logs + block[..n];
    }
  }

  lemma SingleEarlier(logs: seq<Log>, block: seq<Log>, w: Watch, amount: nat)
    requires Single(logs + block, w, amount)
    ensures Single(logs, w, amount)
  {
    MatchingPrefix(logs, block, w);
    var (m, m') := (Matching(logs, w), Matching(logs + block, w));
    assert forall t :: t in m ==> t in m';
  }

  /** Distinct elements of a sequence of at most one element. */
  lemma NoLongerThan<T>(ts: seq<T>, m: seq<T>)
    requires |m| <= 1 && NoDup(ts) && forall t :: t in ts ==> t in m
    ensures |ts| <= 1
  {
    if |ts| > 0 {
      var n := |ts| - 1;
      assert ts[0] in m && ts[n] in m;
    }
  }

  lemma CoveredTotal(logs: seq<Log>, head: nat, t: Terms, ts: seq<Transfer>, h: int)
    requires PayInScan.Covers(logs, head, t, ts, h) && Single(logs, t.watch, t.expectedAtomic)
    ensures Total(ts) == 0 || Total(ts) == t.expectedAtomic
  {
    var m := Matching(logs, t.watch);
    BetweenElems(m, t.startBlock, h);
    NoLongerThan(ts, m);
    if |ts| == 1 {
      assert ts[0] in ts;
      assert ts[0] in m;
      var a := Amounts(ts);
      assert |a| == 1 && a[..0] == [] && Sum(a) == a[0];
    }
  }

  /** Neither short nor over, and never in need of a manual acceptance. */
  ghost predicate WellPaid(p: PayIn) {
    p.status !in {Underpaid, Overpaid} && p.acceptedAt.None? && p.receivedAtomic in {0, p.terms.expectedAtomic}
  }

  lemma StepStaysWellPaid(cfg: Config, s: State, t: Task, i: Input)
    requires PayInScan.Inv(s) && PayInScan.TaskOk(s, t) && WellPaid(s.row)
    requires t.RecWrite? ==> Total(t.transfers) in {0, s.row.terms.expectedAtomic}
    ensures WellPaid(TaskStep(cfg, s, t, i).row)
  {
  }

  lemma {:induction false} RouterRunsStayWellPaid(cfg: Config, s: State, es: seq<Event>)
    requires Initial(s) && PayInScan.ReadsEverything(cfg, s, es)
    requires Single(Exec(cfg, s, es).logs, s.row.terms.watch, s.row.terms.expectedAtomic)
    ensures WellPaid(Exec(cfg, s, es).row)
  {
    if |es| > 0 {
      var (s1, e) := (Exec(cfg, s, es[..|es| - 1]), es[|es| - 1]);
      var s2 := Exec(cfg, s, es);
      if e.Mine? && Appendable(s1.logs, s1.head, e.block) {
        SingleEarlier(s1.logs, e.block, s.row.terms.watch, s.row.terms.expectedAtomic);
      }
      RouterRunsStayWellPaid(cfg, s, es[..|es| - 1]);
      PayInScan.StoredTransfersAreExact(cfg, s, es[..|es| - 1]);
      if e.Step? && e.tid in s1.tasks {
        var t := s1.tasks[e.tid];
        if t.RecWrite? {
          var h :| PayInScan.Covers(s1.logs, s1.head, s1.row.terms, t.transfers, h) && t.head <= h;
          CoveredTotal(s1.logs, s1.head, s1.row.terms, t.transfers, h);
        }
        StepStaysWellPaid(cfg, s1, t, e.input);
      }
    }
  }

  /** A router-mode pay-in is never underpaid or overpaid, in any interleaving of any
      requests with any run of the contract: the received total is 0 or exactly the
      expected amount, and no acceptance ever applies. */
  lemma RouterPayInIsNeverMispaid(cfg: Config, s: State, es: seq<Event>, r0: Router.State, txs: seq<Router.Tx>, ref: Word, token: Address)
    requires Initial(s) && PayInScan.ReadsEverything(cfg, s, es) && Router.Deployed(r0)
    requires s.row.terms.watch == Invoice(r0.self, Router.ComputeInvoiceId(ref, token, s.row.terms.expectedAtomic), token)
    requires InvoiceBodies(Exec(cfg, s, es).logs, r0.self) == Emitted(Router.Run(r0, txs).log, r0.self)
    ensures var p := Exec(cfg, s, es).row;
            && (p.receivedAtomic == 0 || p.receivedAtomic == s.row.terms.expectedAtomic)
            && p.status !in {Underpaid, Overpaid} && p.acceptedAt.None?
  {
    RouterFeedIsSingle(Exec(cfg, s, es).logs, r0, txs, ref, token, s.row.terms.expectedAtomic);
    RouterRunsStayWellPaid(cfg, s, es);
    PayInScan.StoredTransfersAreExact(cfg, s, es);
  }
}
