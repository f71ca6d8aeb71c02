/** Which pay-in a replayed creation returns. */
module CreationReplays {
  import opened Common
  import opened Keccak
  import opened ChainScan
  import opened PayInLedger
  import opened PayInCreation
  import opened CreationTheorems

  /** The request was made in this run. */
  ghost predicate Made(es: seq<Event>, req: Request) {
    exists k :: 0 <= k < |es| && es[k].Start? && es[k].req == req
  }

  /** A request stored this key for the pay-in it created. */
  ghost predicate StoredFor(es: seq<Event>, rows: Rows, full: string, id: Id, req: Request) {
    Made(es, req) && ValidClient(req.clientId) && HasKey(req) && FullKey(req) == full && id in rows && Same(req, rows[id])
  }

  ghost predicate KeysStored(es: seq<Event>, rows: Rows, keys: Keys) {
    forall full :: full in keys ==> exists req :: StoredFor(es, rows, full, keys[full], req)
  }

  lemma MadeLater(es: seq<Event>, e: Event, req: Request)
    requires Made(es, req)
    ensures Made(es + [e], req)
  {
    var k :| 0 <= k < |es| && es[k].Start? && es[k].req == req;
    assert (es + [e])[k] == es[k];
  }

  lemma KeysStoredLater(es: seq<Event>, e: Event, rows: Rows, keys: Keys, rows': Rows)
    requires KeysStored(es, rows, keys) && Grows(rows, keys, rows', keys)
    ensures KeysStored(es + [e], rows', keys)
  {
    forall full | full in keys
      ensures exists req :: StoredFor(es + [e], rows', full, keys[full], req)
    {
      var req :| StoredFor(es, rows, full, keys[full], req);
      MadeLater(es, e, req);
      assert StoredFor(es + [e], rows', full, keys[full], req);
    }
  }

  lemma StepKeepsItsRequest(cfg: Config, s: State, t: Task, i: Input)
    requires !t.Failed?
    ensures var f := TaskStep(cfg, s, t, i);
            && (f.task.Failed? || f.task.req == t.req)
            && (f.keys == s.keys
                || (t.StoreKey? && HasKey(t.req) && f.rows == s.rows && f.keys == s.keys[FullKey(t.req) := t.id]))
  {
  }

  lemma NewKeyIsStored(es: seq<Event>, rows: Rows, keys: Keys, req: Request, id: Id)
    requires KeysStored(es, rows, keys) && HasKey(req) && StoredFor(es, rows, FullKey(req), id, req)
    ensures KeysStored(es, rows, keys[FullKey(req) := id])
  {
    var keys' := keys[FullKey(req) := id];
    forall full | full in keys'
      ensures exists r :: StoredFor(es, rows, full, keys'[full], r)
    {
      if full == FullKey(req) {
        assert StoredFor(es, rows, full, id, req);
      }
    }
  }

  ghost predicate ReplayInv(es: seq<Event>, s: State) {
    KeysStored(es, s.rows, s.keys) && forall t :: t in s.tasks && !s.tasks[t].Failed? ==> Made(es, s.tasks[t].req)
  }

  lemma StepKeepsReplayInv(cfg: Config, es: seq<Event>, e: Event, s: State)
    requires ReplayInv(es, s) && ResultInv(cfg, s) && e.Step? && e.tid in s.tasks && !s.tasks[e.tid].Failed?
    ensures ReplayInv(es + [e], Apply(cfg, s, e))
  {
    var (t, s') := (s.tasks[e.tid], Apply(cfg, s, e));
    var f := TaskStep(cfg, s, t, e.input);
    assert TaskOk(cfg, s.rows, s.keys, t);
    StepOk(cfg, s, t, e.input);
    StepKeepsItsRequest(cfg, s, t, e.input);
    KeysStoredLater(es, e, s.rows, s.keys, f.rows);
    forall u | u in s.tasks && !s.tasks[u].Failed?
      ensures Made(es + [e], s.tasks[u].req)
    {
      MadeLater(es, e, s.tasks[u].req);
    }
    if f.keys != s.keys {
      NewKeyIsStored(es + [e], f.rows, s.keys, t.req, t.id);
    }
  }

  lemma StartKeepsReplayInv(cfg: Config, es: seq<Event>, e: Event, s: State)
    requires ReplayInv(es, s) && e.Start?
    ensures ReplayInv(es + [e], Apply(cfg, s, e))
  {
    KeysStoredLater(es, e, s.rows, s.keys, s.rows);
    forall u | u in s.tasks && !s.tasks[u].Failed?
      ensures Made(es + [e], s.tasks[u].req)
    {
      MadeLater(es, e, s.tasks[u].req);
    }
    assert (es + [e])[|es|] == e;
  }

  lemma OtherKeepsReplayInv(cfg: Config, es: seq<Event>, e: Event, s: State)
    requires ReplayInv(es, s) && !e.Start? && (e.Step? && e.tid in s.tasks ==> s.tasks[e.tid].Failed?)
    ensures ReplayInv(es + [e], Apply(cfg, s, e))
  {
    var s' := Apply(cfg, s, e);
    assert s'.keys == s.keys && s'.tasks == s.tasks && Grows(s.rows, s.keys, s'.rows, s.keys);
    KeysStoredLater(es, e, s.rows, s.keys, s'.rows);
    forall u | u in s.tasks && !s.tasks[u].Failed?
      ensures Made(es + [e], s.tasks[u].req)
    {
      MadeLater(es, e, s.tasks[u].req);
    }
  }

  lemma {:induction false} RunKeepsReplayInv(cfg: Config, es: seq<Event>)
    ensures ReplayInv(es, Exec(cfg, INITIAL, es))
  {
    if |es| > 0 {
      var (b, e) := (es[..|es| - 1], es[|es| - 1]);
      var s := Exec(cfg, INITIAL, b);
      assert es == b + [e];
      RunKeepsReplayInv(cfg, b);
      RunKeepsResults(cfg, b);
      if e.Start? {
        StartKeepsReplayInv(cfg, b, e, s);
      } else if e.Step? && e.tid in s.tasks && !s.tasks[e.tid].Failed? {
        StepKeepsReplayInv(cfg, b, e, s);
      } else {
        OtherKeepsReplayInv(cfg, b, e, s);
      }
    }
  }

  /** The same client used the same idempotency key for another external id. */
  ghost predicate KeyReused(es: seq<Event>, req: Request) {
    HasKey(req) && exists other ::
      && Made(es, other) && other.clientId == req.clientId && other.key == req.key && other.externalId != req.externalId
  }

  /** Any answer, whichever way it was found, is the pay-in the request named by its
      external id, unless its idempotency key was also used for another one. */
  lemma AnswerMatchesUnlessKeyIsReused(cfg: Config, es: seq<Event>, t: TaskId)
    requires var s := Exec(cfg, INITIAL, es); t in s.tasks && s.tasks[t].Returned?
    ensures var s := Exec(cfg, INITIAL, es);
            s.tasks[t].id in s.rows && (Same(s.tasks[t].req, s.rows[s.tasks[t].id]) || KeyReused(es, s.tasks[t].req))
  {
    RunKeepsResults(cfg, es);
    RunKeepsReplayInv(cfg, es);
    var s := Exec(cfg, INITIAL, es);
    var u := s.tasks[t];
    assert TaskOk(cfg, s.rows, s.keys, u);
    if u.source == ByKey {
      var other :| StoredFor(es, s.rows, FullKey(u.req), u.id, other);
      NamespacedKeyIsInjective(u.req.clientId, u.req.key.value, other.clientId, other.key.value);
    }
  }

  // ---- Exactly when --------------------------------------------------------

  /** The key the request carries is not stored, or leads to the pay-in it names. */
  predicate KeyFits(s: State, req: Request)
    requires HasKey(req)
  {
    FullKey(req) in s.keys ==> s.keys[FullKey(req)] in s.rows && Same(req, s.rows[s.keys[FullKey(req)]])
  }

  /** The event looks the request's key up. */
  predicate LooksUp(s: State, e: Event, t: TaskId) {
    e.Step? && e.tid == t && t in s.tasks && s.tasks[t].ReadKey? && !e.input.Throw? && HasKey(s.tasks[t].req)
  }

  /** At the lookup of this request, if it made one, its key fitted. */
  ghost predicate LookupFits(cfg: Config, es: seq<Event>, t: TaskId) {
    |es| == 0 ||
    var (s, e) := (Exec(cfg, INITIAL, es[..|es| - 1]), es[|es| - 1]);
    LookupFits(cfg, es[..|es| - 1], t) && (LooksUp(s, e, t) ==> KeyFits(s, s.tasks[t].req))
  }

  /** What the lookup means for the request from then on. */
  ghost predicate Bound(rows: Rows, u: Task, fits: bool) {
    && (u.FindPrior? || u.Returned? ==> u.id in rows && (Same(u.req, rows[u.id]) <==> fits))
    && (!u.FindPrior? && !u.Returned? && !u.Failed? ==> fits)
    && (u.ReadKey? ==> HasKey(u.req))
  }

  lemma LookupBinds(cfg: Config, s: State, t: Task, i: Input, fits: bool)
    requires (t.ReadKey? || t.FindPrior?) && Bound(s.rows, t, fits) && TablesOk(cfg, s.rows, s.keys)
    ensures Bound(s.rows, KeyStep(cfg, s, t, i).task, fits && (t.ReadKey? && !i.Throw? ==> KeyFits(s, t.req)))
  {
    if t.ReadKey? && FullKey(t.req) in s.keys {
      assert KeyOk(s.rows, FullKey(t.req), s.keys[FullKey(t.req)]);
    }
  }

  lemma InsertBinds(cfg: Config, s: State, t: Task, i: Input)
    requires (t.Insert? || t.FindExisting?) && Bound(s.rows, t, true)
    ensures Bound(InsertStep(s, t, i).rows, InsertStep(s, t, i).task, true)
  {
  }

  lemma OtherBinds(cfg: Config, s: State, t: Task, i: Input, fits: bool)
    requires !t.ReadKey? && !t.FindPrior? && !t.Insert? && !t.FindExisting? && Bound(s.rows, t, fits)
    requires TaskOk(cfg, s.rows, s.keys, t)
    ensures var f := TaskStep(cfg, s, t, i); f.rows == s.rows && Bound(f.rows, f.task, fits)
  {
  }

  lemma StepBinds(cfg: Config, s: State, t: Task, i: Input, fits: bool)
    requires Bound(s.rows, t, fits) && TablesOk(cfg, s.rows, s.keys) && TaskOk(cfg, s.rows, s.keys, t)
    ensures var f := TaskStep(cfg, s, t, i);
            Bound(f.rows, f.task, fits && (t.ReadKey? && !i.Throw? ==> KeyFits(s, t.req)))
  {
    if t.ReadKey? || t.FindPrior? {
      LookupBinds(cfg, s, t, i, fits);
    } else if t.Insert? || t.FindExisting? {
      InsertBinds(cfg, s, t, i);
    } else {
      OtherBinds(cfg, s, t, i, fits);
    }
  }

  lemma BoundLater(rows: Rows, keys: Keys, rows': Rows, keys': Keys, u: Task, fits: bool)
    requires Bound(rows, u, fits) && Grows(rows, keys, rows', keys')
    ensures Bound(rows', u, fits)
  {
  }

  lemma {:induction false} RequestIsBound(cfg: Config, es: seq<Event>, t: TaskId)
    ensures var s := Exec(cfg, INITIAL, es);
            if t in s.tasks then Bound(s.rows, s.tasks[t], LookupFits(cfg, es, t)) else LookupFits(cfg, es, t)
  {
    if |es| > 0 {
      var (b, e) := (es[..|es| - 1], es[|es| - 1]);
      RequestIsBound(cfg, b, t);
      RunKeepsResults(cfg, b);
      EventBinds(cfg, Exec(cfg, INITIAL, b), e, t, LookupFits(cfg, b, t));
    }
  }

  lemma EventBinds(cfg: Config, s: State, e: Event, t: TaskId, fits: bool)
    requires ResultInv(cfg, s) && if t in s.tasks then Bound(s.rows, s.tasks[t], fits) else fits
    ensures var (s', fits') := (Apply(cfg, s, e), fits && (LooksUp(s, e, t) ==> KeyFits(s, s.tasks[t].req)));
            if t in s'.tasks then Bound(s'.rows, s'.tasks[t], fits') else fits'
  {
    if t in s.tasks && e.Step? && e.tid == t {
      assert TaskOk(cfg, s.rows, s.keys, s.tasks[t]);
      StepBinds(cfg, s, s.tasks[t], e.input, fits);
    } else if t in s.tasks {
      EventKeepsResults(cfg, s, e);
      BoundLater(s.rows, s.keys, Apply(cfg, s, e).rows, Apply(cfg, s, e).keys, s.tasks[t], fits);
    }
  }

  /** An answer is the pay-in the request named by its external id if and only if, at its
      lookup, its key was not stored or led to that pay-in. Without a key there is no
      lookup, and the answer is always right. */
  lemma AnswerMatchesIff(cfg: Config, es: seq<Event>, t: TaskId)
    requires var s := Exec(cfg, INITIAL, es); t in s.tasks && s.tasks[t].Returned?
    ensures var s := Exec(cfg, INITIAL, es);
            s.tasks[t].id in s.rows && (Same(s.tasks[t].req, s.rows[s.tasks[t].id]) <==> LookupFits(cfg, es, t))
  {
    RequestIsBound(cfg, es, t);
  }

  lemma NoWayBackToLookup(cfg: Config, s: State, t: Task, i: Input)
    requires !t.ReadKey?
    ensures !TaskStep(cfg, s, t, i).task.ReadKey?
  {
  }

  lemma LooksUpOnce(cfg: Config, es: seq<Event>, t: TaskId, e: Event)
    requires t in Exec(cfg, INITIAL, es).tasks && !Exec(cfg, INITIAL, es).tasks[t].ReadKey?
    ensures var s' := Exec(cfg, INITIAL, es + [e]);
            t in s'.tasks && !s'.tasks[t].ReadKey? && LookupFits(cfg, es + [e], t) == LookupFits(cfg, es, t)
  {
    assert (es + [e])[..|es|] == es;
    var s := Exec(cfg, INITIAL, es);
    if e.Step? && e.tid == t {
      NoWayBackToLookup(cfg, s, s.tasks[t], e.input);
    }
  }

  lemma {:induction false} LookupIsSettled(cfg: Config, es: seq<Event>, more: seq<Event>, t: TaskId)
    requires t in Exec(cfg, INITIAL, es).tasks && !Exec(cfg, INITIAL, es).tasks[t].ReadKey?
    ensures var s' := Exec(cfg, INITIAL, es + more);
            t in s'.tasks && !s'.tasks[t].ReadKey? && LookupFits(cfg, es + more, t) == LookupFits(cfg, es, t)
  {
    if |more| == 0 {
      assert es + more == es;
    } else {
      var n := |more| - 1;
      assert es + more == es + more[..n] + [more[n]];
      LookupIsSettled(cfg, es, more[..n], t);
      LooksUpOnce(cfg, es + more[..n], t, more[n]);
    }
  }

  /** The same, decided before the lookup: whatever happens afterwards, a request that is
      about to look its key up gets the pay-in it names, if it gets an answer, exactly
      when the key is not stored or leads to that pay-in at that moment. */
  lemma LookupDecidesTheAnswer(cfg: Config, es: seq<Event>, t: TaskId, i: Input, more: seq<Event>)
    requires var s := Exec(cfg, INITIAL, es); t in s.tasks && s.tasks[t].ReadKey? && !i.Throw?
    requires var s' := Exec(cfg, INITIAL, es + [Step(t, i)] + more); t in s'.tasks && s'.tasks[t].Returned?
    ensures var (req, s, s') := (Exec(cfg, INITIAL, es).tasks[t].req, Exec(cfg, INITIAL, es), Exec(cfg, INITIAL, es + [Step(t, i)] + more));
            && HasKey(req) && s'.tasks[t].id in s'.rows
            && (Same(s'.tasks[t].req, s'.rows[s'.tasks[t].id]) <==>
                 (FullKey(req) in s.keys ==> s.keys[FullKey(req)] in s.rows && Same(req, s.rows[s.keys[FullKey(req)]])))
  {
    var s := Exec(cfg, INITIAL, es);
    var looked := es + [Step(t, i)];
    assert looked[..|es|] == es;
    RequestIsBound(cfg, es, t);
    AnswerMatchesIff(cfg, looked + more, t);
    LookupIsSettled(cfg, looked, more, t);
  }

  /** A client has one pay-in per external id, and an answer to a request for that id is
      that pay-in if and only if the request's key fitted at its lookup. */
  lemma EveryReplayReturnsTheOnePayIn(cfg: Config, es: seq<Event>, t: TaskId, a: Id)
    requires var s := Exec(cfg, INITIAL, es);
             && t in s.tasks && s.tasks[t].Returned? && s.tasks[t].req.clientId.Some?
             && a in s.rows && Same(s.tasks[t].req, s.rows[a])
    ensures Exec(cfg, INITIAL, es).tasks[t].id == a <==> LookupFits(cfg, es, t)
  {
    AnswerMatchesIff(cfg, es, t);
    RunKeepsOneEach(cfg, es);
    var s := Exec(cfg, INITIAL, es);
    assert s.tasks[t].id != a && Same(s.tasks[t].req, s.rows[s.tasks[t].id]) ==> Clashes(s.rows[s.tasks[t].id], s.rows[a]);
  }

  // ---- A reused key --------------------------------------------------------

  lemma Moved(cfg: Config, es: seq<Event>, tid: TaskId, i: Input, f: Effect)
    requires var s := Exec(cfg, INITIAL, es); tid in s.tasks && TaskStep(cfg, s, s.tasks[tid], i) == f
    ensures Exec(cfg, INITIAL, es + [Step(tid, i)]) == State(f.rows, f.keys, f.counter, Exec(cfg, INITIAL, es).tasks[tid := f.task])
  {
    assert (es + [Step(tid, i)])[..|es|] == es;
  }

  lemma Begun(cfg: Config, es: seq<Event>, tid: TaskId, req: Request)
    requires tid !in Exec(cfg, INITIAL, es).tasks && ValidClient(req.clientId)
    ensures var s := Exec(cfg, INITIAL, es);
            Exec(cfg, INITIAL, es + [Start(tid, req)]) == s.(tasks := s.tasks[tid := if HasKey(req) then ReadKey(req) else Begin(cfg, req)])
  {
    assert (es + [Start(tid, req)])[..|es|] == es;
  }

  /** A creation that nothing disturbs, past the lookup of its key. */
  lemma ToHead(cfg: Config, es: seq<Event>, tid: TaskId, req: Request) returns (longer: seq<Event>)
    requires var s := Exec(cfg, INITIAL, es);
             && tid !in s.tasks && ValidClient(req.clientId) && req.mode == DerivedAddress && req.expectedAtomic > 0
             && (HasKey(req) ==> FullKey(req) !in s.keys)
    ensures var s := Exec(cfg, INITIAL, es); Exec(cfg, INITIAL, longer) == s.(tasks := s.tasks[tid := ReadHead(req)])
  {
    var s := Exec(cfg, INITIAL, es);
    Begun(cfg, es, tid, req);
    longer := es + [Start(tid, req)];
    if HasKey(req) {
      Moved(cfg, longer, tid, Go(Clean), Effect(s.rows, s.keys, s.counter, ReadHead(req)));
      longer := longer + [Step(tid, Go(Clean))];
    }
  }

  /** A derived-address creation, up to its insert. */
  lemma ToInsert(cfg: Config, es: seq<Event>, tid: TaskId, req: Request, n: nat) returns (longer: seq<Event>)
    requires var s := Exec(cfg, INITIAL, es);
             && tid !in s.tasks && s.counter == Some(n) && ValidClient(req.clientId) && req.mode == DerivedAddress && req.expectedAtomic > 0
             && (HasKey(req) ==> FullKey(req) !in s.keys)
    ensures var s := Exec(cfg, INITIAL, es);
            Exec(cfg, INITIAL, longer) == State(s.rows, s.keys, Some(n + 1), s.tasks[tid := Insert(req, NewPayIn(cfg, req, n, 1))])
  {
    var s := Exec(cfg, INITIAL, es);
    longer := ToHead(cfg, es, tid, req);
    Moved(cfg, longer, tid, Head(1), Effect(s.rows, s.keys, s.counter, ClaimIndex(req, 1)));
    longer := longer + [Step(tid, Head(1))];
    Moved(cfg, longer, tid, Go(Clean), Effect(s.rows, s.keys, Some(n + 1), Insert(req, NewPayIn(cfg, req, n, 1))));
    longer := longer + [Step(tid, Go(Clean))];
  }

  /** An insert that nothing disturbs, past the storing of its key. */
  lemma ToAudit(cfg: Config, es: seq<Event>, tid: TaskId, req: Request, p: PayIn, id: Id) returns (longer: seq<Event>)
    requires var s := Exec(cfg, INITIAL, es);
             && tid in s.tasks && s.tasks[tid] == Insert(req, p) && id !in s.rows
             && (forall k :: k in s.rows ==> !Clashes(s.rows[k], p)) && (HasKey(req) ==> FullKey(req) !in s.keys)
    ensures var s := Exec(cfg, INITIAL, es);
            Exec(cfg, INITIAL, longer) == State(s.rows[id := p], if HasKey(req) then s.keys[FullKey(req) := id] else s.keys, s.counter,
                                                s.tasks[tid := Audit(req, id)])
  {
    var s := Exec(cfg, INITIAL, es);
    var rows := s.rows[id := p];
    Moved(cfg, es, tid, NewId(id, Clean), Effect(rows, s.keys, s.counter, AfterInsert(req, id)));
    longer := es + [Step(tid, NewId(id, Clean))];
    if HasKey(req) {
      Moved(cfg, longer, tid, Go(Clean), Effect(rows, s.keys[FullKey(req) := id], s.counter, Audit(req, id)));
      longer := longer + [Step(tid, Go(Clean))];
    }
  }

  /** And from there to its answer. */
  lemma ToAnswer(cfg: Config, es: seq<Event>, tid: TaskId, req: Request, p: PayIn, id: Id) returns (longer: seq<Event>)
    requires var s := Exec(cfg, INITIAL, es);
             && tid in s.tasks && s.tasks[tid] == Insert(req, p) && id !in s.rows
             && (forall k :: k in s.rows ==> !Clashes(s.rows[k], p)) && (HasKey(req) ==> FullKey(req) !in s.keys)
    ensures var s := Exec(cfg, INITIAL, es);
            Exec(cfg, INITIAL, longer) == State(s.rows[id := p], if HasKey(req) then s.keys[FullKey(req) := id] else s.keys, s.counter,
                                                s.tasks[tid := Returned(req, id, Fresh)])
  {
    var s := Exec(cfg, INITIAL, es);
    longer := ToAudit(cfg, es, tid, req, p, id);
    var s1 := Exec(cfg, INITIAL, longer);
    Moved(cfg, longer, tid, Go(Clean), Effect(s1.rows, s1.keys, s1.counter, Returned(req, id, Fresh)));
    longer := longer + [Step(tid, Go(Clean))];
  }

  function Ask(externalId: string, key: Option<string>): Request {
    Request(Some("c"), externalId, key, DerivedAddress, None, 1, 5, None)
  }

  /** A client that reuses a key gets the older pay-in, although it has one under the
      external id it names. */
  lemma ReusedKeyReturnsAnotherPayIn(cfg: Config) returns (es: seq<Event>)
    ensures var s := Exec(cfg, INITIAL, es);
            && 2 in s.tasks && s.tasks[2] == Returned(Ask("E2", Some("k")), 10, ByKey)
            && 10 in s.rows && s.rows[10].terms.externalId == "E1"
            && 20 in s.rows && Same(Ask("E2", Some("k")), s.rows[20])
  {
    var (first, second, third) := (Ask("E1", Some("k")), Ask("E2", None), Ask("E2", Some("k")));
    var (p, q) := (NewPayIn(cfg, first, 0, 1), NewPayIn(cfg, second, 1, 1));
    es := ToInsert(cfg, [], 0, first, 0);
    es := ToAnswer(cfg, es, 0, first, p, 10);
    es := ToInsert(cfg, es, 1, second, 1);
    assert "E1"[1] != "E2"[1];
    es := ToAnswer(cfg, es, 1, second, q, 20);
    var s := Exec(cfg, INITIAL, es);
    assert s.rows[10] == p && s.rows[20] == q && s.keys[FullKey(third)] == 10;
    Begun(cfg, es, 2, third);
    es := es + [Start(2, third)];
    Moved(cfg, es, 2, Go(Clean), Effect(s.rows, s.keys, s.counter, FindPrior(third, 10)));
    es := es + [Step(2, Go(Clean))];
    Moved(cfg, es, 2, Go(Clean), Effect(s.rows, s.keys, s.counter, Returned(third, 10, ByKey)));
    es := es + [Step(2, Go(Clean))];
  }
}
