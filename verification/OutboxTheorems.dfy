/** Bounded retries, final statuses and termination of webhook deliveries. */
module OutboxTheorems {
  import opened Common
  import opened WebhookOutbox
  import opened OutboxProtocol

  // ---- Invariant -----------------------------------------------------------

  function Used(attempts: nat, max: nat): nat {
    if attempts < max then attempts else if max > 0 then max - 1 else 0
  }

  ghost predicate PhaseOk(max: nat, h: Holder) {
    match h.phase
    case Writing(w, posted) =>
      && (w.Reschedule? ==> w.attempts == h.attempts + 1 && (posted ==> w.attempts < max))
      && (w.SetStatus? ==> Terminal(w.status) && (w.status == Delivered ==> posted && w.attempts == h.attempts + 1))
    case Rewriting(w) =>
      && (w.Reschedule? ==> w.attempts == h.attempts + 1 < max)
      && (w.SetStatus? ==> w.status == Failed)
    case _ => true
  }

  predicate MayHavePosted(p: Phase) {
    p.Waiting? || (p.Writing? && p.posted) || p.Rewriting?
  }

  ghost predicate HolderOk(max: nat, row: Row, posts: nat, recoveries: nat, h: Holder) {
    && PhaseOk(max, h)
    && ((row.status == Delivering && row.updatedAt == h.since && row.attempts == h.attempts)
        || (h.phase.Rewriting? && row.status == Delivered))
    && posts <= Used(h.attempts, max) + recoveries + (if MayHavePosted(h.phase) then 1 else 0)
  }

  ghost predicate RowOk(max: nat, row: Row, posts: nat, recoveries: nat) {
    && posts <= max + recoveries
    && (row.status == Pending ==> posts <= Used(row.attempts, max) + recoveries)
    && (row.status == Delivering ==> posts <= Used(row.attempts, max) + recoveries + 1)
  }

  ghost predicate Inv(max: nat, s: State) {
    && max >= 1
    && RowOk(max, s.row, s.posts, s.recoveries)
    && (forall h, k :: h in s.holders && k in s.holders ==> h == k)
    && (forall h :: h in s.holders ==> HolderOk(max, s.row, s.posts, s.recoveries, s.holders[h]))
  }

  lemma DecisionsAreOk(max: nat, h: Holder, l: Load, r: Response)
    ensures h.phase.Loading? && AfterLoad(h.attempts, l).Some? ==> PhaseOk(max, h.(phase := Writing(AfterLoad(h.attempts, l).value, false)))
    ensures PhaseOk(max, h.(phase := Writing(AfterPost(h.attempts, max, r), true)))
    ensures PhaseOk(max, h.(phase := Rewriting(RetryOrFail(h.attempts + 1, max, true, "database error"))))
  {
  }

  lemma StepKeepsInv(max: nat, s: State, hid: HolderId, i: Input)
    requires Inv(max, s) && hid in s.holders
    ensures Inv(max, StepOf(max, s, hid, s.holders[hid], i))
  {
    var h := s.holders[hid];
    assert HolderOk(max, s.row, s.posts, s.recoveries, h);
    DecisionsAreOk(max, h, if i.Loaded? then i.load else Endpoint, if i.Answered? then i.response else Http(0));
  }

  lemma EventKeepsInv(max: nat, s: State, e: Event)
    requires Inv(max, s) && Prompt(s)
    ensures Inv(max, Apply(max, s, e))
  {
    if e.Step? && e.hid in s.holders {
      StepKeepsInv(max, s, e.hid, e.input);
    }
  }

  lemma {:induction false} RunKeepsInv(max: nat, s: State, es: seq<Event>)
    requires Inv(max, s) && PromptRun(max, s, es)
    ensures Inv(max, Exec(max, s, es))
  {
    if |es| > 0 {
      var n := |es| - 1;
      PromptPrefix(max, s, es, n);
      RunKeepsInv(max, s, es[..n]);
      EventKeepsInv(max, Exec(max, s, es[..n]), es[n]);
    }
  }

  lemma PromptPrefix(max: nat, s: State, es: seq<Event>, n: nat)
    requires PromptRun(max, s, es) && n <= |es|
    ensures PromptRun(max, s, es[..n]) && Prompt(Exec(max, s, es[..n]))
  {
    forall k | 0 <= k <= n
      ensures Prompt(Exec(max, s, es[..n][..k]))
    {
      assert es[..n][..k] == es[..k];
    }
  }

  /** In every run where no delivery outlives its lease, an event is POSTed at most
      max(1, retryAttempts) times plus once per recovery of its row. */
  lemma PostsAreBounded(retryAttempts: int, t0: Time, es: seq<Event>)
    requires PromptRun(MaxAttempts(retryAttempts), Created(t0), es)
    ensures var (max, s) := (MaxAttempts(retryAttempts), Exec(MaxAttempts(retryAttempts), Created(t0), es));
            s.posts <= max + s.recoveries
  {
    RunKeepsInv(MaxAttempts(retryAttempts), Created(t0), es);
  }

  /** Under the same condition no two deliveries of one event are ever under way. */
  lemma OneDeliveryAtATime(retryAttempts: int, t0: Time, es: seq<Event>, a: HolderId, b: HolderId)
    requires PromptRun(MaxAttempts(retryAttempts), Created(t0), es)
    requires var s := Exec(MaxAttempts(retryAttempts), Created(t0), es); a in s.holders && b in s.holders
    ensures a == b
  {
    RunKeepsInv(MaxAttempts(retryAttempts), Created(t0), es);
  }

  // ---- Final statuses ------------------------------------------------------

  /** The write of `delivered` reaches the table while its caller sees an error. */
  predicate LostAck(s: State, e: Event) {
    && e.Step? && e.hid in s.holders && s.holders[e.hid].phase.Writing? && e.input == Save(ErrorAfter)
    && s.holders[e.hid].phase.w.SetStatus? && s.holders[e.hid].phase.w.status == Delivered
  }

  ghost predicate AckedRun(max: nat, s: State, es: seq<Event>) {
    forall n :: 0 <= n < |es| ==> !LostAck(Exec(max, s, es[..n]), es[n])
  }

  ghost predicate Quiet(s: State) {
    Terminal(s.row.status) ==> s.holders == map[]
  }

  lemma EventKeepsQuiet(max: nat, s: State, e: Event)
    requires Inv(max, s) && Prompt(s) && Quiet(s) && !LostAck(s, e)
    ensures Quiet(Apply(max, s, e))
    ensures Terminal(s.row.status) ==> Apply(max, s, e).row == s.row
  {
    if e.Step? && e.hid in s.holders {
      assert HolderOk(max, s.row, s.posts, s.recoveries, s.holders[e.hid]);
      assert s.holders - {e.hid} == map[];
    }
  }

  lemma {:induction false} RunStaysQuiet(max: nat, s: State, es: seq<Event>)
    requires Inv(max, s) && Quiet(s) && PromptRun(max, s, es) && AckedRun(max, s, es)
    ensures Quiet(Exec(max, s, es))
    ensures Terminal(s.row.status) ==> Exec(max, s, es).row == s.row
  {
    if |es| > 0 {
      var n := |es| - 1;
      AckedPrefix(max, s, es, n);
      PromptPrefix(max, s, es, n);
      RunStaysQuiet(max, s, es[..n]);
      RunKeepsInv(max, s, es[..n]);
      EventKeepsQuiet(max, Exec(max, s, es[..n]), es[n]);
    }
  }

  lemma AckedPrefix(max: nat, s: State, es: seq<Event>, n: nat)
    requires AckedRun(max, s, es) && n <= |es|
    ensures AckedRun(max, s, es[..n])
  {
    forall k | 0 <= k < n
      ensures !LostAck(Exec(max, s, es[..n][..k]), es[..n][k])
    {
      assert es[..n][..k] == es[..k];
    }
  }

  lemma {:induction false} ExecConcat(max: nat, s: State, a: seq<Event>, b: seq<Event>)
    ensures Exec(max, s, a + b) == Exec(max, Exec(max, s, a), b)
  {
    if |b| == 0 {
      assert a + b == a;
    } else {
      assert (a + b)[..|a + b| - 1] == a + b[..|b| - 1];
      ExecConcat(max, s, a, b[..|b| - 1]);
    }
  }

  lemma SuffixRun(max: nat, s: State, a: seq<Event>, b: seq<Event>)
    requires PromptRun(max, s, a + b) && AckedRun(max, s, a + b)
    ensures PromptRun(max, s, a) && AckedRun(max, s, a)
    ensures PromptRun(max, Exec(max, s, a), b) && AckedRun(max, Exec(max, s, a), b)
  {
    assert (a + b)[..|a|] == a;
    PromptPrefix(max, s, a + b, |a|);
    AckedPrefix(max, s, a + b, |a|);
    forall n | 0 <= n <= |b|
      ensures Prompt(Exec(max, Exec(max, s, a), b[..n]))
      ensures n < |b| ==> !LostAck(Exec(max, Exec(max, s, a), b[..n]), b[n])
    {
      ExecConcat(max, s, a, b[..n]);
      assert (a + b)[..|a| + n] == a + b[..n];
      assert n < |b| ==> (a + b)[|a| + n] == b[n];
    }
  }

  /** A delivered, failed or skipped row never changes again, when deliveries keep
      their lease and no write of `delivered` succeeds behind an error. */
  lemma TerminalIsFinal(retryAttempts: int, t0: Time, es: seq<Event>, more: seq<Event>)
    requires PromptRun(MaxAttempts(retryAttempts), Created(t0), es + more) && AckedRun(MaxAttempts(retryAttempts), Created(t0), es + more)
    requires Terminal(Exec(MaxAttempts(retryAttempts), Created(t0), es).row.status)
    ensures Exec(MaxAttempts(retryAttempts), Created(t0), es + more).row == Exec(MaxAttempts(retryAttempts), Created(t0), es).row
  {
    var max := MaxAttempts(retryAttempts);
    SuffixRun(max, Created(t0), es, more);
    RunKeepsInv(max, Created(t0), es);
    RunStaysQuiet(max, Created(t0), es);
    ExecConcat(max, Created(t0), es, more);
    RunStaysQuiet(max, Exec(max, Created(t0), es), more);
  }

  /** In a prompt run the only thing that ever changes a terminal row is the catch
      block of a delivery whose write of `delivered` had gone through behind an error. */
  lemma TerminalRowChangesIff(retryAttempts: int, t0: Time, es: seq<Event>, e: Event)
    requires PromptRun(MaxAttempts(retryAttempts), Created(t0), es)
    requires Terminal(Exec(MaxAttempts(retryAttempts), Created(t0), es).row.status)
    ensures var s := Exec(MaxAttempts(retryAttempts), Created(t0), es);
            Apply(MaxAttempts(retryAttempts), s, e).row != s.row <==>
            && e.Step? && e.hid in s.holders && s.holders[e.hid].phase.Rewriting?
            && e.input.Save? && !e.input.fault.ErrorBefore?
  {
    var max := MaxAttempts(retryAttempts);
    RunKeepsInv(max, Created(t0), es);
    var s := Exec(max, Created(t0), es);
    if e.Step? && e.hid in s.holders {
      assert HolderOk(max, s.row, s.posts, s.recoveries, s.holders[e.hid]);
    }
  }

  /** Whatever the leases: a terminal row that no delivery holds is final, in every run. */
  lemma {:induction false} RestingRowIsFinal(max: nat, s: State, es: seq<Event>)
    requires Terminal(s.row.status) && s.holders == map[]
    ensures var s' := Exec(max, s, es); s'.row == s.row && s'.holders == map[] && s'.posts == s.posts
  {
    if |es| > 0 {
      RestingRowIsFinal(max, s, es[..|es| - 1]);
    }
  }

  /** And a delivery that still holds it settles the row by its own decision, whatever
      another one has written meanwhile. */
  lemma HolderDecides(max: nat, s: State, hid: HolderId)
    requires hid in s.holders && (s.holders[hid].phase.Writing? || s.holders[hid].phase.Rewriting?)
    ensures Apply(max, s, Step(hid, Save(Clean))).row == Written(s.row, s.holders[hid].phase.w, s.now)
    ensures s.holders[hid].phase.w.Reschedule? ==> Apply(max, s, Step(hid, Save(Clean))).row.status == Pending
  {
  }

  // ---- Termination ---------------------------------------------------------

  /** No crash, no failing statement, no failing load. */
  predicate Healthy(e: Event) {
    && !e.Die?
    && (e.Step? && e.input.Loaded? ==> !e.input.load.LoadError?)
    && (e.Step? && e.input.Save? ==> e.input.fault.Clean?)
  }

  ghost predicate HealthyInv(max: nat, s: State) {
    && Inv(max, s) && Quiet(s)
    && (!Terminal(s.row.status) ==> s.row.attempts < max)
    && (s.row.status == Delivering ==> s.holders != map[])
    && (forall h :: h in s.holders ==> var p := s.holders[h].phase;
          !p.Rewriting? && (p.Writing? && !p.posted ==> p.w.SetStatus?))
  }

  function Rank(p: Phase): nat {
    match p case Loading => 4 case Ready => 3 case Waiting => 2 case _ => 1
  }

  /** What is left to do: attempts first, then how far the delivery has come. */
  ghost function Remaining(max: nat, s: State): nat
    requires Terminal(s.row.status) || s.row.attempts < max
  {
    if Terminal(s.row.status) then 0
    else 6 * (max - s.row.attempts) + (if s.row.status == Pending then 5 else HolderRank(s.holders))
  }

  ghost function HolderRank(holders: map<HolderId, Holder>): nat {
    if holders == map[] then 0 else var h :| h in holders; Rank(holders[h].phase)
  }

  predicate Advances(max: nat, s: State, e: Event) {
    var s' := Apply(max, s, e);
    s'.row != s.row || s'.holders != s.holders
  }

  lemma OnlyHolderRank(holders: map<HolderId, Holder>, hid: HolderId, h: Holder)
    requires forall a, b :: a in holders && b in holders ==> a == b
    requires hid in holders && holders[hid] == h
    ensures HolderRank(holders) == Rank(h.phase) && holders - {hid} == map[] && HolderRank(holders[hid := h]) == Rank(h.phase)
    ensures forall p :: HolderRank(holders[hid := h.(phase := p)]) == Rank(p)
  {
    forall p: Phase
      ensures HolderRank(holders[hid := h.(phase := p)]) == Rank(p)
    {
      assert (holders[hid := h.(phase := p)]).Keys == holders.Keys;
    }
  }

  lemma HealthyStep(max: nat, s: State, hid: HolderId, i: Input)
    requires HealthyInv(max, s) && Prompt(s) && hid in s.holders && Healthy(Step(hid, i))
    ensures HealthyInv(max, StepOf(max, s, hid, s.holders[hid], i))
    ensures Advances(max, s, Step(hid, i)) ==> Remaining(max, StepOf(max, s, hid, s.holders[hid], i)) < Remaining(max, s)
  {
    var h := s.holders[hid];
    assert HolderOk(max, s.row, s.posts, s.recoveries, h);
    OnlyHolderRank(s.holders, hid, h);
    StepKeepsInv(max, s, hid, i);
    EventKeepsQuiet(max, s, Step(hid, i));
  }

  lemma HealthyEvent(max: nat, s: State, e: Event)
    requires HealthyInv(max, s) && Prompt(s) && Healthy(e)
    ensures HealthyInv(max, Apply(max, s, e))
    ensures Remaining(max, Apply(max, s, e)) <= Remaining(max, s)
    ensures Advances(max, s, e) ==> Remaining(max, Apply(max, s, e)) < Remaining(max, s)
  {
    EventKeepsInv(max, s, e);
    if e.Step? && e.hid in s.holders {
      HealthyStep(max, s, e.hid, e.input);
    } else if e.Recover? && s.row.status == Delivering {
      var h :| h in s.holders;
      assert HolderOk(max, s.row, s.posts, s.recoveries, s.holders[h]);
    } else if e.Claim? && Due(s.row, s.now) {
      assert s.holders == map[];
    }
  }

  /** How many events of a run moved the row or a delivery forward. */
  function Work(max: nat, s: State, es: seq<Event>): nat {
    if |es| == 0 then 0
    else
      var n := |es| - 1;
      Work(max, s, es[..n]) + (if Advances(max, Exec(max, s, es[..n]), es[n]) then 1 else 0)
  }

  lemma {:induction false} HealthyRun(max: nat, s: State, es: seq<Event>)
    requires HealthyInv(max, s) && PromptRun(max, s, es) && forall n :: 0 <= n < |es| ==> Healthy(es[n])
    ensures HealthyInv(max, Exec(max, s, es))
    ensures Work(max, s, es) + Remaining(max, Exec(max, s, es)) <= Remaining(max, s)
  {
    if |es| > 0 {
      var n := |es| - 1;
      PromptPrefix(max, s, es, n);
      HealthyRun(max, s, es[..n]);
      HealthyEvent(max, Exec(max, s, es[..n]), es[n]);
    }
  }

  /** Absent crashes and load failures, every step of a delivery uses up a bounded
      budget: after at most 6 * max + 5 of them the row is terminal. */
  lemma DeliveriesTerminate(retryAttempts: int, t0: Time, es: seq<Event>)
    requires PromptRun(MaxAttempts(retryAttempts), Created(t0), es) && forall n :: 0 <= n < |es| ==> Healthy(es[n])
    ensures var (max, s) := (MaxAttempts(retryAttempts), Exec(MaxAttempts(retryAttempts), Created(t0), es));
            && Work(max, Created(t0), es) <= 6 * max + 5
            && (Work(max, Created(t0), es) == 6 * max + 5 ==> Terminal(s.row.status))
  {
    var max := MaxAttempts(retryAttempts);
    CreatedIsHealthy(max, t0);
    HealthyRun(max, Created(t0), es);
    NothingRemains(max, Exec(max, Created(t0), es));
  }

  lemma CreatedIsHealthy(max: nat, t0: Time)
    requires max >= 1
    ensures HealthyInv(max, Created(t0)) && Remaining(max, Created(t0)) == 6 * max + 5
  {
  }

  lemma NothingRemains(max: nat, s: State)
    requires HealthyInv(max, s)
    ensures Remaining(max, s) == 0 <==> Terminal(s.row.status)
  {
  }

  /** And until it is terminal, waiting for its due time is all it takes for another
      such step to be possible. */
  lemma UnfinishedCanAdvance(retryAttempts: int, t0: Time, es: seq<Event>) returns (wait: nat, e: Event)
    requires PromptRun(MaxAttempts(retryAttempts), Created(t0), es) && forall n :: 0 <= n < |es| ==> Healthy(es[n])
    requires !Terminal(Exec(MaxAttempts(retryAttempts), Created(t0), es).row.status)
    ensures Healthy(e)
    ensures var (max, s) := (MaxAttempts(retryAttempts), Exec(MaxAttempts(retryAttempts), Created(t0), es));
            Prompt(Apply(max, s, Tick(wait))) && Advances(max, Apply(max, s, Tick(wait)), e)
  {
    var max := MaxAttempts(retryAttempts);
    HealthyRun(max, Created(t0), es);
    PromptPrefix(max, Created(t0), es, |es|);
    assert es[..|es|] == es;
    var s := Exec(max, Created(t0), es);
    if s.row.status == Pending {
      wait := if s.row.nextAt > s.now then s.row.nextAt - s.now else 0;
      e := Claim(0);
      assert s.holders == map[];
    } else {
      wait := 0;
      var hid :| hid in s.holders;
      var p := s.holders[hid].phase;
      e := Step(hid, if p.Loading? then Loaded(Endpoint) else if p.Ready? then Post else if p.Waiting? then Answered(Http(200)) else Save(Clean));
      assert HolderOk(max, s.row, s.posts, s.recoveries, s.holders[hid]);
      assert p.Writing? ==> hid !in Apply(max, s, e).holders;
      assert !p.Writing? ==> Apply(max, s, e).holders[hid].phase != p;
    }
  }

  // ---- What a status means -------------------------------------------------

  /** An answer with a 2xx code (`ok`), or with a code that rules out a retry: below 500,
      neither 2xx nor 429. */
  predicate Says(r: Response, ok: bool) {
    r.Http? && if ok then 200 <= r.code <= 299 else r.code < 500 && r.code != 429 && !(200 <= r.code <= 299)
  }

  ghost predicate SomeAnswer(es: seq<Event>, ok: bool) {
    exists k :: 0 <= k < |es| && es[k].Step? && es[k].input.Answered? && Says(es[k].input.response, ok)
  }

  lemma SomeAnswerLater(es: seq<Event>, ok: bool)
    requires |es| > 0 && SomeAnswer(es[..|es| - 1], ok)
    ensures SomeAnswer(es, ok)
  {
    var b := es[..|es| - 1];
    var k :| 0 <= k < |b| && b[k].Step? && b[k].input.Answered? && Says(b[k].input.response, ok);
    assert es[k] == b[k];
  }

  /** A write of `delivered` needs a good answer; one of `failed`, a final answer or
      no attempts left. */
  ghost predicate Justified(max: nat, es: seq<Event>, w: Write) {
    w.SetStatus? ==>
      && (w.status == Delivered ==> SomeAnswer(es, true))
      && (w.status == Failed ==> w.attempts >= max || SomeAnswer(es, false))
  }

  ghost predicate PhaseJustified(max: nat, es: seq<Event>, p: Phase) {
    p.Writing? || p.Rewriting? ==> Justified(max, es, p.w)
  }

  ghost predicate RowJustified(max: nat, es: seq<Event>, row: Row) {
    Justified(max, es, SetStatus(row.status, row.attempts, None))
  }

  lemma JustifiedLater(max: nat, es: seq<Event>, w: Write)
    requires |es| > 0 && Justified(max, es[..|es| - 1], w)
    ensures Justified(max, es, w)
  {
    if SomeAnswer(es[..|es| - 1], true) {
      SomeAnswerLater(es, true);
    }
    if SomeAnswer(es[..|es| - 1], false) {
      SomeAnswerLater(es, false);
    }
  }

  lemma StepJustified(max: nat, es: seq<Event>, s: State, hid: HolderId, i: Input)
    requires |es| > 0 && es[|es| - 1] == Step(hid, i) && hid in s.holders
    requires RowJustified(max, es, s.row) && PhaseJustified(max, es, s.holders[hid].phase)
    ensures var s' := StepOf(max, s, hid, s.holders[hid], i);
            RowJustified(max, es, s'.row) && (hid in s'.holders ==> PhaseJustified(max, es, s'.holders[hid].phase))
  {
    if i.Answered? {
      assert Says(i.response, true) ==> SomeAnswer(es, true);
      assert Says(i.response, false) ==> SomeAnswer(es, false);
    }
  }

  lemma {:induction false} RunsAreJustified(max: nat, s: State, es: seq<Event>)
    requires s.row.status == Pending && s.holders == map[]
    ensures var s' := Exec(max, s, es);
            RowJustified(max, es, s'.row) && forall h :: h in s'.holders ==> PhaseJustified(max, es, s'.holders[h].phase)
  {
    if |es| > 0 {
      var n := |es| - 1;
      var (b, e) := (Exec(max, s, es[..n]), es[n]);
      RunsAreJustified(max, s, es[..n]);
      JustifiedLater(max, es, SetStatus(b.row.status, b.row.attempts, None));
      forall h | h in b.holders
        ensures PhaseJustified(max, es, b.holders[h].phase)
      {
        var p := b.holders[h].phase;
        if p.Writing? || p.Rewriting? {
          JustifiedLater(max, es, p.w);
        }
      }
      if e.Step? && e.hid in b.holders {
        StepJustified(max, es, b, e.hid, e.input);
      }
    }
  }

  /** In every run, prompt or not: a delivered row was answered with a 2xx, and a failed
      one was answered with a code below 500 that is neither 2xx nor 429, or has used up
      its attempts. */
  lemma StatusIsJustified(retryAttempts: int, t0: Time, es: seq<Event>)
    ensures var (max, row) := (MaxAttempts(retryAttempts), Exec(MaxAttempts(retryAttempts), Created(t0), es).row);
            && (row.status == Delivered ==> SomeAnswer(es, true))
            && (row.status == Failed ==> row.attempts >= max || SomeAnswer(es, false))
  {
    RunsAreJustified(MaxAttempts(retryAttempts), Created(t0), es);
  }

  /** One delivery in the machine, by the answer's code alone: when its write goes through,
      the row is delivered on 2xx, failed on another code below 500 but 429 or at the
      limit, and otherwise pending again after the delay for that many attempts. */
  lemma AnswerIsWritten(max: nat, s: State, hid: HolderId, r: Response)
    requires hid in s.holders && s.holders[hid].phase.Waiting?
    ensures var s' := Apply(max, Apply(max, s, Step(hid, Answered(r))), Step(hid, Save(Clean)));
            var made := s.holders[hid].attempts + 1;
            var (good, final) := (r.Http? && 200 <= r.code <= 299, r.Http? && r.code < 500 && r.code != 429);
            && s'.posts == s.posts && hid !in s'.holders && s'.row.attempts == made
            && s'.row.status == (if good then Delivered else if final || made >= max then Failed else Pending)
            && (s'.row.status == Pending ==> s'.row.nextAt == s.now + if made == 1 then 1_000 else if made == 2 then 5_000 else 30_000)
  {
    AnswerDecides(s.row.(attempts := s.holders[hid].attempts), max, r, s.now);
  }

  // ---- What bounds the attempts --------------------------------------------

  predicate FailsLoad(s: State, e: Event) {
    e.Step? && e.hid in s.holders && s.holders[e.hid].phase.Loading? && e.input.Loaded? && e.input.load.LoadError?
  }

  /** Loads of the client that failed during a run. */
  function FailedLoads(max: nat, s: State, es: seq<Event>): nat {
    if |es| == 0 then 0
    else
      var n := |es| - 1;
      FailedLoads(max, s, es[..n]) + (if FailsLoad(Exec(max, s, es[..n]), es[n]) then 1 else 0)
  }

  /** `bound` attempts before a row rests, and one more for its last delivery. */
  ghost predicate WriteWithin(w: Write, bound: nat) {
    match w
    case SetStatus(status, attempts, _) => Terminal(status) && attempts <= bound + 1
    case Reschedule(attempts, _) => attempts <= bound
  }

  ghost predicate HolderWithin(h: Holder, bound: nat) {
    h.attempts <= bound && (h.phase.Writing? || h.phase.Rewriting? ==> WriteWithin(h.phase.w, bound))
  }

  ghost predicate Within(s: State, bound: nat) {
    && s.row.attempts <= bound + (if Terminal(s.row.status) then 1 else 0)
    && forall h :: h in s.holders ==> HolderWithin(s.holders[h], bound)
  }

  lemma StepWithin(max: nat, s: State, hid: HolderId, i: Input, bound: nat, bound': nat)
    requires max >= 1 && bound >= max - 1 && Within(s, bound) && hid in s.holders
    requires bound' == bound + (if FailsLoad(s, Step(hid, i)) then 1 else 0)
    ensures Within(StepOf(max, s, hid, s.holders[hid], i), bound')
  {
    assert HolderWithin(s.holders[hid], bound);
  }

  lemma {:induction false} RunsStayWithin(max: nat, t0: Time, es: seq<Event>)
    requires max >= 1
    ensures Within(Exec(max, Created(t0), es), max - 1 + FailedLoads(max, Created(t0), es))
  {
    if |es| > 0 {
      var n := |es| - 1;
      var (s, e) := (Exec(max, Created(t0), es[..n]), es[n]);
      var bound := max - 1 + FailedLoads(max, Created(t0), es[..n]);
      RunsStayWithin(max, t0, es[..n]);
      if e.Step? && e.hid in s.holders {
        StepWithin(max, s, e.hid, e.input, bound, max - 1 + FailedLoads(max, Created(t0), es));
      }
    }
  }

  /** In every run, prompt or not, a row's attempts exceed the limit by no more than the
      loads that failed, and stay below it by one until the row rests. */
  lemma AttemptsAreBounded(retryAttempts: int, t0: Time, es: seq<Event>)
    ensures var (max, row) := (MaxAttempts(retryAttempts), Exec(MaxAttempts(retryAttempts), Created(t0), es).row);
            && row.attempts <= max + FailedLoads(max, Created(t0), es)
            && (!Terminal(row.status) ==> row.attempts < max + FailedLoads(max, Created(t0), es))
  {
    RunsStayWithin(MaxAttempts(retryAttempts), t0, es);
  }

  // ---- What does not hold --------------------------------------------------

  lemma Extend(max: nat, s: State, es: seq<Event>, e: Event)
    ensures Exec(max, s, es + [e]) == Apply(max, Exec(max, s, es), e)
    ensures PromptRun(max, s, es) && Prompt(Exec(max, s, es + [e])) ==> PromptRun(max, s, es + [e])
  {
    assert (es + [e])[..|es|] == es;
    forall n | 0 <= n <= |es|
      ensures (es + [e])[..n] == es[..n]
    {
    }
    assert (es + [e])[..|es + [e]|] == es + [e];
  }

  /** A row on which only loads have failed so far. */
  ghost predicate Unloaded(max: nat, t0: Time, es: seq<Event>, n: nat) {
    var s := Exec(max, Created(t0), es);
    && PromptRun(max, Created(t0), es) && s.holders == map[] && s.posts == s.recoveries == 0
    && s.row.status == Pending && s.row.attempts == n && s.row.nextAt <= s.now + 30_000
  }

  /** The attempt limit does not bound failed loads: whatever the limit, for every n
      a prompt run leaves the row pending with n attempts and nothing POSTed. */
  lemma {:induction false} FailedLoadsOutrunTheLimit(max: nat, t0: Time, n: nat) returns (es: seq<Event>)
    ensures Unloaded(max, t0, es, n)
  {
    if n == 0 {
      es := [];
    } else {
      es := FailedLoadsOutrunTheLimit(max, t0, n - 1);
      es := OneMoreFailedLoad(max, t0, es, n - 1);
    }
  }

  lemma OneMoreFailedLoad(max: nat, t0: Time, es: seq<Event>, n: nat) returns (longer: seq<Event>)
    requires Unloaded(max, t0, es, n)
    ensures Unloaded(max, t0, longer, n + 1)
  {
    var (wait, claim, load, save) := (Tick(30_000), Claim(0), Step(0, Loaded(LoadError("down"))), Step(0, Save(Clean)));
    Extend(max, Created(t0), es, wait);
    var e1 := es + [wait];
    Extend(max, Created(t0), e1, claim);
    var e2 := e1 + [claim];
    assert Exec(max, Created(t0), e2).holders == map[0 := Holder(n, Exec(max, Created(t0), e2).now, Loading)];
    Extend(max, Created(t0), e2, load);
    var e3 := e2 + [load];
    Extend(max, Created(t0), e3, save);
    longer := e3 + [save];
    assert Exec(max, Created(t0), longer).holders == map[];
  }

  /** A delivery that gets its endpoint and a 200, up to its write. */
  lemma RunToWrite(max: nat) returns (es: seq<Event>)
    ensures PromptRun(max, Created(0), es)
    ensures Exec(max, Created(0), es)
            == State(Claimed(Enqueued(0), 0), map[0 := Holder(0, 0, Writing(SetStatus(Delivered, 1, None), true))], 0, 1, 0)
  {
    var s := Created(0);
    var (claim, load, post, ok) := (Claim(0), Step(0, Loaded(Endpoint)), Step(0, Post), Step(0, Answered(Http(200))));
    Extend(max, s, [], claim);
    assert Exec(max, s, [] + [claim]) == State(Claimed(Enqueued(0), 0), map[0 := Holder(0, 0, Loading)], 0, 0, 0);
    Extend(max, s, [] + [claim], load);
    assert Exec(max, s, [] + [claim] + [load]) == State(Claimed(Enqueued(0), 0), map[0 := Holder(0, 0, Ready)], 0, 0, 0);
    Extend(max, s, [] + [claim] + [load], post);
    Extend(max, s, [] + [claim] + [load] + [post], ok);
    es := [] + [claim] + [load] + [post] + [ok];
  }

  /** A write of `delivered` that succeeds behind an error is taken for a failed
      POST: the delivered row goes back to pending, though the run is prompt. */
  lemma LostAckRevivesDelivered() returns (es: seq<Event>, more: seq<Event>)
    ensures PromptRun(3, Created(0), es + more)
    ensures Exec(3, Created(0), es).row.status == Delivered && Exec(3, Created(0), es + more).row.status == Pending
  {
    var run := RunToWrite(3);
    var (lost, save) := (Step(0, Save(ErrorAfter)), Step(0, Save(Clean)));
    Extend(3, Created(0), run, lost);
    es, more := run + [lost], [save];
    assert Exec(3, Created(0), es).holders
           == map[0 := Holder(0, 0, Rewriting(Reschedule(1, "database error")))];
    Extend(3, Created(0), es, save);
    assert Prompt(Exec(3, Created(0), es + more));
  }

  const SLOW: Holder := Holder(0, 0, Loading)

  /** A slow delivery loses its lease and another claims the row. */
  lemma RunToSecondClaim() returns (es: seq<Event>)
    ensures var (s, t) := (Exec(3, Created(0), es), LEASE_MS + 1);
            s == State(Row(Delivering, 0, 0, None, t), map[0 := SLOW, 1 := Holder(0, t, Loading)], t, 0, 1)
    ensures !PromptRun(3, Created(0), es)
  {
    var s := Created(0);
    var (claim, tick, again) := (Claim(0), Tick(LEASE_MS + 1), Claim(1));
    Extend(3, s, [], claim);
    Extend(3, s, [] + [claim], tick);
    Extend(3, s, [] + [claim] + [tick], Recover);
    Extend(3, s, [] + [claim] + [tick] + [Recover], again);
    es := [] + [claim] + [tick] + [Recover] + [again];
    assert Exec(3, s, es).holders == map[0 := SLOW, 1 := Holder(0, LEASE_MS + 1, Loading)];
    assert !Prompt(Exec(3, s, es[..|es|])) by {
      assert es[..|es|] == es && 0 in Exec(3, s, es).holders;
    }
  }

  /** The second delivery succeeds. */
  lemma RunToSecondDelivered() returns (es: seq<Event>)
    ensures var (s, t) := (Exec(3, Created(0), es), LEASE_MS + 1);
            s == State(Row(Delivered, 1, 0, None, t), map[0 := SLOW], t, 1, 1)
  {
    var run := RunToSecondClaim();
    var (s, t) := (Created(0), LEASE_MS + 1);
    var (load, post, ok, save) := (Step(1, Loaded(Endpoint)), Step(1, Post), Step(1, Answered(Http(200))), Step(1, Save(Clean)));
    Extend(3, s, run, load);
    Extend(3, s, run + [load], post);
    Extend(3, s, run + [load] + [post], ok);
    Extend(3, s, run + [load] + [post] + [ok], save);
    es := run + [load] + [post] + [ok] + [save];
    assert Exec(3, s, es).holders == map[0 := SLOW];
  }

  /** The lease condition is needed: a delivery that outlives its lease puts a row
      that another one has delivered back to pending, to be POSTed again. */
  lemma LateWriteRevivesDelivered() returns (es: seq<Event>, more: seq<Event>)
    ensures Exec(3, Created(0), es).row.status == Delivered && Exec(3, Created(0), es + more).row.status == Pending
  {
    es := RunToSecondDelivered();
    var (fail, save) := (Step(0, Loaded(LoadError("down"))), Step(0, Save(Clean)));
    Extend(3, Created(0), es, fail);
    Extend(3, Created(0), es + [fail], save);
    more := [fail] + [save];
    assert es + more == es + [fail] + [save];
  }
}
