/** What is stored for a pay-in is what was asked for (src/payins/payins.service.ts). */
module CreationRecords {
  import opened Common
  import opened Keccak
  import opened ChainScan
  import opened PayInLedger
  import opened PayInCreation
  import opened CreationTheorems
  import opened CreationReplays

  // ---- Single decisions ----------------------------------------------------

  /** Past its key, a request goes on exactly for a positive amount and, in router mode,
      with a router configured. */
  lemma RequestBeginsIff(cfg: Config, s: State, tid: TaskId, req: Request)
    requires tid !in s.tasks && ValidClient(req.clientId) && !HasKey(req)
    ensures var s' := Apply(cfg, s, Start(tid, req));
            && (s'.tasks[tid] == ReadHead(req) <==> req.expectedAtomic > 0 && (req.mode == PaymentRouterMode ==> cfg.router.Some?))
            && (s'.tasks[tid] == Failed <==> req.expectedAtomic == 0 || (req.mode == PaymentRouterMode && cfg.router.None?))
            && s'.rows == s.rows && s'.keys == s.keys && s'.counter == s.counter
  {
  }

  /** A given, nonempty key is looked up first; a key that is stored leads to its pay-in. */
  lemma KeyIsLookedUp(cfg: Config, s: State, tid: TaskId, req: Request)
    requires tid !in s.tasks && ValidClient(req.clientId)
    ensures Apply(cfg, s, Start(tid, req)).tasks[tid] == ReadKey(req) <==> req.key.Some? && req.key.value != ""
    ensures req.key.Some? && req.key.value != "" ==>
              var (s1, full) := (Apply(cfg, s, Start(tid, req)), (if req.clientId == None then "global" else req.clientId.value) + ":" + req.key.value);
              var s2 := Apply(cfg, s1, Step(tid, Go(Clean)));
              if full in s.keys then s2.tasks[tid] == FindPrior(req, s.keys[full])
              else s2.tasks[tid] == if req.expectedAtomic > 0 && (req.mode == PaymentRouterMode ==> cfg.router.Some?) then ReadHead(req) else Failed
  {
  }

  /** A pay-in found through a key is the answer; a key whose pay-in is gone counts for nothing. */
  lemma KeyAnswers(cfg: Config, s: State, tid: TaskId)
    requires tid in s.tasks && s.tasks[tid].FindPrior?
    ensures var (t, s') := (s.tasks[tid], Apply(cfg, s, Step(tid, Go(Clean))));
            (t.id in s.rows <==> s'.tasks[tid] == Returned(t.req, t.id, ByKey)) && s'.rows == s.rows && s'.keys == s.keys
  {
  }

  /** After its insert a request stores its key, unless it is taken, then audits and answers. */
  lemma InsertIsFinished(cfg: Config, s: State, tid: TaskId)
    requires tid in s.tasks && (s.tasks[tid].StoreKey? || s.tasks[tid].Audit?) && (s.tasks[tid].StoreKey? ==> HasKey(s.tasks[tid].req))
    ensures var (t, s') := (s.tasks[tid], Apply(cfg, s, Step(tid, Go(Clean))));
            && (t.StoreKey? ==>
                  var full := (if t.req.clientId == None then "global" else t.req.clientId.value) + ":" + t.req.key.value;
                  s'.tasks[tid] == Audit(t.req, t.id) && s'.keys == if full in s.keys then s.keys else s.keys[full := t.id])
            && (t.Audit? ==> s'.tasks[tid] == Returned(t.req, t.id, Fresh) && s'.keys == s.keys)
            && s'.rows == s.rows && s'.counter == s.counter
  {
  }

  /** The index a derived pay-in gets is the counter's, which moves on by one; without the
      counter row, or on an error, the request fails; router pay-ins take none. */
  lemma IndexIsClaimed(cfg: Config, s: State, tid: TaskId)
    requires tid in s.tasks && s.tasks[tid].ClaimIndex? && s.tasks[tid].req.mode == DerivedAddress
    ensures var (t, s') := (s.tasks[tid], Apply(cfg, s, Step(tid, Go(Clean))));
            && (s.counter == None ==> s'.tasks[tid] == Failed && s'.counter == None)
            && (s.counter.Some? ==> s'.counter == Some(s.counter.value + 1) && s'.tasks[tid].Insert?
                                    && s'.tasks[tid].record.terms.derivationIndex == s.counter.value
                                    && s'.tasks[tid].record.terms.startBlock == t.startBlock)
            && s'.rows == s.rows && s'.keys == s.keys
  {
  }

  /** An insert stores its record exactly when the client has no pay-in under that external
      id; otherwise the request looks for the existing one. */
  lemma InsertStoresIff(cfg: Config, s: State, tid: TaskId, id: Id)
    requires tid in s.tasks && s.tasks[tid].Insert? && id !in s.rows
    ensures var (t, s') := (s.tasks[tid], Apply(cfg, s, Step(tid, NewId(id, Clean))));
            var free := forall k :: k in s.rows && t.record.terms.clientId.Some? ==>
                          !(s.rows[k].terms.clientId == t.record.terms.clientId && s.rows[k].terms.externalId == t.record.terms.externalId);
            && (free ==> s'.rows == s.rows[id := t.record]
                         && s'.tasks[tid] == if t.req.key.Some? && t.req.key.value != "" then StoreKey(t.req, id) else Audit(t.req, id))
            && (!free ==> s'.rows == s.rows && s'.tasks[tid] == FindExisting(t.req))
            && s'.keys == s.keys && s'.counter == s.counter
  {
  }

  /** A new record: pending, nothing received, seen or swept, the sweep pending for a
      derived address and not required for the router. */
  lemma NewRecordIsBlank(cfg: Config, req: Request, index: int, startBlock: nat)
    requires if req.mode == DerivedAddress then index >= 0 else cfg.router.Some?
    ensures var p := NewPayIn(cfg, req, index, startBlock);
            p == PayIn(p.terms, Pending, 0, [], None, None, None, None,
                       if req.mode == DerivedAddress then SweepPending else NotRequired, None, 0, None, None)
  {
  }

  // ---- Over runs -----------------------------------------------------------

  /** The fixed columns a request asks for, with the address derived for its index, or
      the invoice of its reference, by default the digest of its external id. */
  ghost predicate AskedFor(cfg: Config, t: Terms, req: Request) {
    && t.clientId == req.clientId && t.externalId == req.externalId && t.mode == req.mode
    && t.expectedAtomic == req.expectedAtomic && t.expiresAt == req.expiresAt
    && (t.mode == DerivedAddress ==> t.derivationIndex >= 0 && t.watch == Deposit(req.token, cfg.derive(t.derivationIndex)))
    && (t.mode == PaymentRouterMode ==>
          var ref := if req.invoiceRef == None then KeccakText(req.externalId) else req.invoiceRef.value;
          cfg.router.Some? && t.watch == Invoice(cfg.router.value, Keccak([ref, Num(req.token), Num(req.expectedAtomic)]), req.token))
  }

  /** Some request was told that the chain's head is here. */
  ghost predicate HeadTold(es: seq<Event>, head: nat) {
    exists k :: 0 <= k < |es| && es[k].Step? && es[k].input == Head(head)
  }

  ghost predicate TermsFrom(cfg: Config, es: seq<Event>, t: Terms) {
    HeadTold(es, t.startBlock) && exists req :: Made(es, req) && AskedFor(cfg, t, req)
  }

  ghost predicate TaskFrom(cfg: Config, es: seq<Event>, t: Task) {
    && (t.ClaimIndex? ==> HeadTold(es, t.startBlock))
    && (t.Insert? ==> TermsFrom(cfg, es, t.record.terms))
  }

  lemma TermsFromLater(cfg: Config, es: seq<Event>, e: Event, t: Terms)
    requires TermsFrom(cfg, es, t)
    ensures TermsFrom(cfg, es + [e], t)
  {
    HeadToldLater(es, e, t.startBlock);
    var req :| Made(es, req) && AskedFor(cfg, t, req);
    MadeLater(es, e, req);
  }

  lemma HeadToldLater(es: seq<Event>, e: Event, head: nat)
    requires HeadTold(es, head)
    ensures HeadTold(es + [e], head)
  {
    var k :| 0 <= k < |es| && es[k].Step? && es[k].input == Head(head);
    assert (es + [e])[k] == es[k];
  }

  lemma ClaimIsFrom(cfg: Config, es: seq<Event>, s: State, tid: TaskId, t: Task, i: Input)
    requires |es| > 0 && es[|es| - 1] == Step(tid, i) && (t.ReadHead? || t.ClaimIndex?) && Made(es, t.req) && TaskFrom(cfg, es, t)
    ensures TaskFrom(cfg, es, ClaimStep(cfg, s, t, i).task)
  {
    var f := ClaimStep(cfg, s, t, i);
    if t.ReadHead? && i.Head? {
      assert es[|es| - 1].input == Head(i.head);
    }
    if f.task.Insert? && f.task != t {
      assert AskedFor(cfg, f.task.record.terms, t.req);
    }
  }

  lemma OtherIsFrom(cfg: Config, es: seq<Event>, s: State, t: Task, i: Input)
    requires !t.ReadHead? && !t.ClaimIndex? && TaskFrom(cfg, es, t)
    ensures var f := TaskStep(cfg, s, t, i);
            && TaskFrom(cfg, es, f.task)
            && forall a :: a in f.rows ==> (a in s.rows && f.rows[a].terms == s.rows[a].terms) || (t.Insert? && f.rows[a] == t.record)
  {
  }

  ghost predicate RowsFrom(cfg: Config, es: seq<Event>, s: State) {
    && (forall a :: a in s.rows ==> TermsFrom(cfg, es, s.rows[a].terms))
    && (forall t :: t in s.tasks ==> TaskFrom(cfg, es, s.tasks[t]))
  }

  lemma RowsFromLater(cfg: Config, es: seq<Event>, e: Event, s: State)
    requires RowsFrom(cfg, es, s)
    ensures RowsFrom(cfg, es + [e], s)
  {
    forall a | a in s.rows
      ensures TermsFrom(cfg, es + [e], s.rows[a].terms)
    {
      TermsFromLater(cfg, es, e, s.rows[a].terms);
    }
    forall t | t in s.tasks
      ensures TaskFrom(cfg, es + [e], s.tasks[t])
    {
      if s.tasks[t].ClaimIndex? {
        HeadToldLater(es, e, s.tasks[t].startBlock);
      } else if s.tasks[t].Insert? {
        TermsFromLater(cfg, es, e, s.tasks[t].record.terms);
      }
    }
  }

  lemma StepIsFrom(cfg: Config, es: seq<Event>, s: State, tid: TaskId, i: Input)
    requires |es| > 0 && es[|es| - 1] == Step(tid, i) && tid in s.tasks && RowsFrom(cfg, es, s)
    requires !s.tasks[tid].Failed? ==> Made(es, s.tasks[tid].req)
    ensures RowsFrom(cfg, es, Apply(cfg, s, Step(tid, i)))
  {
    var t := s.tasks[tid];
    if t.ReadHead? || t.ClaimIndex? {
      ClaimIsFrom(cfg, es, s, tid, t, i);
    } else {
      OtherIsFrom(cfg, es, s, t, i);
    }
  }

  lemma {:induction false} RunsAreFrom(cfg: Config, es: seq<Event>)
    ensures RowsFrom(cfg, es, Exec(cfg, INITIAL, es))
  {
    if |es| > 0 {
      var (b, e) := (es[..|es| - 1], es[|es| - 1]);
      var s := Exec(cfg, INITIAL, b);
      assert es == b + [e];
      RunsAreFrom(cfg, b);
      RowsFromLater(cfg, b, e, s);
      if e.Step? && e.tid in s.tasks {
        RunKeepsReplayInv(cfg, b);
        if !s.tasks[e.tid].Failed? {
          MadeLater(b, e, s.tasks[e.tid].req);
        }
        StepIsFrom(cfg, es, s, e.tid, e.input);
      }
    }
  }

  /** In every interleaving a stored pay-in is one that some request asked for, field by
      field, and starts at a head that was read from the chain. */
  lemma StoredPayInWasAskedFor(cfg: Config, es: seq<Event>, a: Id) returns (req: Request)
    requires a in Exec(cfg, INITIAL, es).rows
    ensures Made(es, req) && AskedFor(cfg, Exec(cfg, INITIAL, es).rows[a].terms, req)
    ensures HeadTold(es, Exec(cfg, INITIAL, es).rows[a].terms.startBlock)
  {
    RunsAreFrom(cfg, es);
    var t := Exec(cfg, INITIAL, es).rows[a].terms;
    assert TermsFrom(cfg, es, t);
    req :| Made(es, req) && AskedFor(cfg, t, req);
  }
}
