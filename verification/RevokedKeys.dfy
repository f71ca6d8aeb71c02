/** A revoked API key under any interleaving: when it can come back. */
module RevokedKeys {
  import opened Common
  import opened ApiKeyCache

  /** Whether a change could make the key valid again. */
  predicate Revives(k: ClientId, c: Change, id: ClientId, hash: Hash) {
    c == Rotate(hash) || (k == id && c.Update? && c.active == Some(true))
  }

  /** The task brings no earlier answer for the key and no change that restores it. */
  ghost predicate Spent(t: Task, id: ClientId, hash: Hash) {
    && (t.Filling? && t.hash == hash ==> t.answer.None?)
    && (t.Requiring? || t.Writing? ==> !Revives(t.id, t.change, id, hash))
  }

  /** Dead in the repository, not in the cache, and nothing under way would bring it back. */
  ghost predicate Gone(s: State, id: ClientId, hash: Hash) {
    && Dead(s.rows, id, hash) && hash !in s.cache
    && forall t :: t in s.tasks ==> Spent(s.tasks[t], id, hash)
  }

  /** Nobody asks for the key to be valid again: no administrator here, no other instance. */
  ghost predicate LeavesDead(e: Event, id: ClientId, hash: Hash) {
    && (e.Outside? ==> Dead(e.table, id, hash))
    && (e.Admin? ==> !Revives(e.id, e.change, id, hash))
  }

  /** Resolves of the key that had already been answered with a client. */
  ghost predicate Resolved(t: Task, hash: Hash) {
    t.Returned? && t.hash == hash && t.answer.Some?
  }

  lemma ReadKeepsGone(s: State, tid: TaskId, fails: bool, id: ClientId, hash: Hash)
    requires Gone(s, id, hash) && tid in s.tasks && (s.tasks[tid].Reading? || s.tasks[tid].Filling?)
    ensures var s' := StepOf(s, tid, s.tasks[tid], fails);
            && Gone(s', id, hash) && (Resolved(s'.tasks[tid], hash) ==> s'.tasks[tid] == s.tasks[tid])
  {
    var t := s.tasks[tid];
    assert Spent(t, id, hash);
    assert FindActive(s.rows, hash) == None;
  }

  lemma ChangeKeepsGone(s: State, tid: TaskId, fails: bool, id: ClientId, hash: Hash)
    requires Gone(s, id, hash) && tid in s.tasks && !s.tasks[tid].Reading? && !s.tasks[tid].Filling?
    ensures var s' := StepOf(s, tid, s.tasks[tid], fails);
            && Gone(s', id, hash) && (Resolved(s'.tasks[tid], hash) ==> s'.tasks[tid] == s.tasks[tid])
  {
    assert Spent(s.tasks[tid], id, hash);
  }

  lemma EventKeepsGone(s: State, e: Event, id: ClientId, hash: Hash)
    requires Gone(s, id, hash) && LeavesDead(e, id, hash)
    ensures Gone(Apply(s, e), id, hash)
    ensures forall t :: t in Apply(s, e).tasks && Resolved(Apply(s, e).tasks[t], hash) ==> t in s.tasks && s.tasks[t] == Apply(s, e).tasks[t]
  {
    match e
    case Step(tid, fails) =>
      if tid in s.tasks {
        StepKeepsGone(s, tid, fails, id, hash);
      }
    case Resolve(tid, asked) => ResolveKeepsGone(s, tid, asked, id, hash);
    case Admin(tid, k, c) => AdminKeepsGone(s, tid, k, c, id, hash);
    case _ =>
  }

  lemma StepKeepsGone(s: State, tid: TaskId, fails: bool, id: ClientId, hash: Hash)
    requires Gone(s, id, hash) && tid in s.tasks
    ensures var s' := StepOf(s, tid, s.tasks[tid], fails);
            && Gone(s', id, hash)
            && forall t :: t in s'.tasks && Resolved(s'.tasks[t], hash) ==> t in s.tasks && s.tasks[t] == s'.tasks[t]
  {
    if s.tasks[tid].Reading? || s.tasks[tid].Filling? {
      ReadKeepsGone(s, tid, fails, id, hash);
    } else {
      ChangeKeepsGone(s, tid, fails, id, hash);
    }
    OnlyStepped(s, tid, fails);
  }

  lemma OnlyStepped(s: State, tid: TaskId, fails: bool)
    requires tid in s.tasks
    ensures var s' := StepOf(s, tid, s.tasks[tid], fails);
            s'.tasks.Keys == s.tasks.Keys && forall t :: t in s.tasks && t != tid ==> s'.tasks[t] == s.tasks[t]
  {
  }

  lemma ResolveKeepsGone(s: State, tid: TaskId, asked: Hash, id: ClientId, hash: Hash)
    requires Gone(s, id, hash)
    ensures var s' := Apply(s, Resolve(tid, asked));
            && Gone(s', id, hash)
            && forall t :: t in s'.tasks && Resolved(s'.tasks[t], hash) ==> t in s.tasks && s.tasks[t] == s'.tasks[t]
  {
  }

  lemma AdminKeepsGone(s: State, tid: TaskId, k: ClientId, c: Change, id: ClientId, hash: Hash)
    requires Gone(s, id, hash) && !Revives(k, c, id, hash)
    ensures var s' := Apply(s, Admin(tid, k, c));
            && Gone(s', id, hash)
            && forall t :: t in s'.tasks && Resolved(s'.tasks[t], hash) ==> t in s.tasks && s.tasks[t] == s'.tasks[t]
  {
  }

  // ---- One request ---------------------------------------------------------

  /** An administrator's change of an existing client, left alone, rewrites its row, clears
      the whole cache, and ends. */
  lemma ChangeRunsToItsEnd(s: State, tid: TaskId, id: ClientId, c: Change)
    requires tid !in s.tasks && id in s.rows && Accepts(s.rows, id, c)
    ensures var go := Step(tid, false);
            var s' := Apply(Apply(Apply(Apply(s, Admin(tid, id, c)), go), go), go);
            s'.rows == Rewritten(s.rows, id, c) && s'.cache == map[] && s'.tasks == s.tasks[tid := Done] && s'.now == s.now
  {
    var go := Step(tid, false);
    var s1 := Apply(Apply(s, Admin(tid, id, c)), go);
    assert s1 == s.(tasks := s.tasks[tid := Writing(id, c)]);
    var s2 := Apply(s1, go);
    assert s2 == s.(rows := Rewritten(s.rows, id, c), tasks := s.tasks[tid := Clearing]);
  }

  /** A resolve answers from the cache while the entry is good; otherwise, left alone, it
      answers what the repository holds and caches that for 30 seconds. */
  lemma ResolveRunsToItsEnd(s: State, tid: TaskId, hash: Hash)
    requires tid !in s.tasks
    ensures var (go, hit) := (Step(tid, false), hash in s.cache && s.now < s.cache[hash].expiresAt);
            var s1 := Apply(s, Resolve(tid, hash));
            var s' := Apply(Apply(s1, go), go);
            && (hit ==> s1.tasks[tid] == Returned(hash, Some(s.cache[hash].client), s.now) && s1.cache == s.cache)
            && (!hit ==> && s'.tasks[tid] == Returned(hash, FindActive(s.rows, hash), s.now)
                         && s'.rows == s.rows
                         && s'.cache == if FindActive(s.rows, hash) == None then s.cache - {hash}
                                        else s.cache[hash := Entry(FindActive(s.rows, hash).value, s.now + 30_000)])
  {
  }

  // ---- Over runs -----------------------------------------------------------

  function Run(s: State, es: seq<Event>): State {
    if |es| == 0 then s else Apply(Run(s, es[..|es| - 1]), es[|es| - 1])
  }

  /** Under any interleaving, a key that is gone never resolves again: every resolve
      of it that has an answer later had that answer before. */
  lemma {:induction false} GoneKeyNeverResolves(s: State, es: seq<Event>, id: ClientId, hash: Hash, t: TaskId)
    requires Gone(s, id, hash) && forall n :: 0 <= n < |es| ==> LeavesDead(es[n], id, hash)
    ensures Gone(Run(s, es), id, hash)
    ensures t in Run(s, es).tasks && Resolved(Run(s, es).tasks[t], hash) ==> t in s.tasks && s.tasks[t] == Run(s, es).tasks[t]
  {
    if |es| > 0 {
      GoneKeyNeverResolves(s, es[..|es| - 1], id, hash, t);
      EventKeepsGone(Run(s, es[..|es| - 1]), es[|es| - 1], id, hash);
    }
  }

  /** The step with which a rotation or a disable returns makes the key gone exactly when
      the key is dead and no resolve answered before it, nor a change that restores the
      key, is still under way. */
  lemma ClearingRemovesKeyIff(s: State, tid: TaskId, fails: bool, id: ClientId, hash: Hash)
    requires tid in s.tasks && s.tasks[tid].Clearing?
    ensures Gone(Apply(s, Step(tid, fails)), id, hash) <==>
            Dead(s.rows, id, hash) && forall t :: t in s.tasks ==> Spent(s.tasks[t], id, hash)
  {
    var s' := Apply(s, Step(tid, fails));
    assert forall t :: t in s.tasks && t != tid ==> s'.tasks[t] == s.tasks[t];
    assert s'.cache == map[] && s'.rows == s.rows && s'.tasks[tid] == Done && s'.tasks.Keys == s.tasks.Keys;
  }

  /** Conversely, a resolve that still holds an earlier answer makes the key resolve
      again, whatever the repository says by then. */
  lemma PendingAnswerRevivesKey(s: State, tid: TaskId, later: TaskId, hash: Hash)
    requires tid in s.tasks && s.tasks[tid].Filling? && s.tasks[tid].hash == hash && s.tasks[tid].answer.Some? && later !in s.tasks
    ensures var s' := Apply(Apply(s, Step(tid, false)), Resolve(later, hash));
            later in s'.tasks && s'.tasks[later] == Returned(hash, s.tasks[tid].answer, s.now)
  {
  }
}
