/** The clients service when its operations run one at a time
    (src/clients/clients.service.ts): the cache cannot be seen from outside. */
module ClientsService {
  import opened Common
  import opened ApiKeyCache

  /** Nothing in the cache differs from what the repository would answer. */
  ghost predicate Coherent(rows: Rows, cache: Cache) {
    forall hash :: hash in cache ==> FindActive(rows, hash) == Some(cache[hash].client)
  }

  /** `Violation` is the UNIQUE constraint refusing a key already in use. */
  datatype ChangeResult = NotFound | Violation | Returned(client: Client)

  class Service {
    var rows: Rows
    var cache: Cache

    ghost predicate Valid() reads this {
      Coherent(rows, cache)
    }

    constructor (rows: Rows)
      ensures Valid() && this.rows == rows
    {
      this.rows := rows;
      cache := map[];
    }

    /** `false` stands for the insert's constraint violation. */
    method CreateClient(id: ClientId, hash: Hash, name: string, url: Option<string>) returns (ok: bool)
      requires Valid()
      modifies this
      ensures Valid() && ok == (id !in old(rows) && !InUse(old(rows), hash))
      ensures rows == if ok then old(rows)[id := Row(hash, Client(name, true, url))] else old(rows)
      ensures ok ==> FindActive(rows, hash) == Some(Client(name, true, url))
      ensures Memory(rows, cache) == Do(old(Memory(rows, cache)), Create(id, Row(hash, Client(name, true, url))))
    {
      ok := id !in rows && !InUse(rows, hash);
      if ok {
        InsertKeepsOthers(rows, id, Row(hash, Client(name, true, url)), cache);
        rows := rows[id := Row(hash, Client(name, true, url))];
        assert rows[id].hash == hash;
      }
    }

    /** updateClient and rotateApiKey. */
    method ChangeClient(id: ClientId, c: Change) returns (r: ChangeResult)
      requires Valid()
      modifies this
      ensures Valid() && (r.NotFound? <==> id !in old(rows)) && (r.Violation? <==> id in old(rows) && !Accepts(old(rows), id, c))
      ensures !r.Returned? ==> rows == old(rows) && cache == old(cache)
      ensures r.Returned? ==> rows == Rewritten(old(rows), id, c) && r.client == rows[id].client && cache == map[]
      ensures r.Returned? && ((c.Rotate? && c.hash != old(rows)[id].hash) || !r.client.active) ==>
                FindActive(rows, old(rows)[id].hash) == None
      ensures Memory(rows, cache) == Do(old(Memory(rows, cache)), Alter(id, c))
    {
      if id !in rows {
        return NotFound;
      }
      if !Accepts(rows, id, c) {
        return Violation;
      }
      rows := Rewritten(rows, id, c);
      cache := map[];
      return ChangeResult.Returned(rows[id].client);
    }

    /** resolveActiveClientByApiKey answers what the repository would. */
    method ResolveActiveClientByApiKey(hash: Hash, now: Time) returns (r: Option<Client>)
      requires Valid()
      modifies this`cache
      ensures Valid() && r == FindActive(rows, hash)
      ensures Memory(rows, cache) == Do(old(Memory(rows, cache)), Look(hash, now))
    {
      if hash in cache && cache[hash].expiresAt > now {
        return Some(cache[hash].client);
      }
      r := FindActive(rows, hash);
      if r.Some? {
        cache := cache[hash := Entry(r.value, now + TTL_MS)];
      } else {
        cache := cache - {hash};
      }
    }
  }

  lemma InsertKeepsOthers(rows: Rows, id: ClientId, row: Row, cache: Cache)
    requires id !in rows && !InUse(rows, row.hash) && Coherent(rows, cache)
    ensures HashesUnique(rows[id := row]) && Coherent(rows[id := row], cache)
  {
    var after: Rows := rows[id := row];
    forall hash | hash in cache
      ensures FindActive(after, hash) == Some(cache[hash].client)
    {
      var k :| k in rows && rows[k].hash == hash && rows[k].client.active;
      assert after[k] == rows[k];
    }
  }

  // ---- Serial runs ---------------------------------------------------------

  datatype Op =
    | Create(id: ClientId, row: Row)
    | Alter(id: ClientId, change: Change)
    | Look(hash: Hash, now: Time)

  datatype Memory = Memory(rows: Rows, cache: Cache)

  /** What a resolve answers. */
  function Answer(m: Memory, hash: Hash, now: Time): Option<Client> {
    var hit := Hit(m.cache, hash, now);
    if hit.Some? then hit else FindActive(m.rows, hash)
  }

  function Do(m: Memory, op: Op): Memory {
    match op
    case Create(id, row) =>
      if id in m.rows || InUse(m.rows, row.hash) then m else m.(rows := m.rows[id := row])
    case Alter(id, c) =>
      if id in m.rows && Accepts(m.rows, id, c) then Memory(Rewritten(m.rows, id, c), map[]) else m
    case Look(hash, now) =>
      if Hit(m.cache, hash, now).Some? then m else m.(cache := Filled(m.cache, hash, FindActive(m.rows, hash), now))
  }

  function Run(m: Memory, ops: seq<Op>): Memory {
    if |ops| == 0 then m else Do(Run(m, ops[..|ops| - 1]), ops[|ops| - 1])
  }

  lemma LookKeepsCoherent(rows: Rows, cache: Cache, hash: Hash, now: Time)
    requires Coherent(rows, cache)
    ensures Coherent(rows, Filled(cache, hash, FindActive(rows, hash), now))
  {
  }

  lemma {:induction false} RunsStayCoherent(m: Memory, ops: seq<Op>)
    requires Coherent(m.rows, m.cache)
    ensures var r := Run(m, ops); Coherent(r.rows, r.cache)
  {
    if |ops| > 0 {
      var (before, op) := (Run(m, ops[..|ops| - 1]), ops[|ops| - 1]);
      RunsStayCoherent(m, ops[..|ops| - 1]);
      if op.Create? && op.id !in before.rows && !InUse(before.rows, op.row.hash) {
        InsertKeepsOthers(before.rows, op.id, op.row, before.cache);
      } else if op.Look? {
        LookKeepsCoherent(before.rows, before.cache, op.hash, op.now);
      }
    }
  }

  /** With atomic operations the cache is transparent: at every moment a resolve
      answers exactly what the repository holds. */
  lemma CacheIsTransparent(rows: Rows, ops: seq<Op>, hash: Hash, now: Time)
    ensures var m := Run(Memory(rows, map[]), ops); Answer(m, hash, now) == FindActive(m.rows, hash)
  {
    RunsStayCoherent(Memory(rows, map[]), ops);
  }

  /** Whether an operation could make this key of this client valid again. */
  predicate Restores(op: Op, id: ClientId, hash: Hash) {
    || (op.Create? && op.row.hash == hash)
    || (op.Alter? && op.change == Rotate(hash))
    || (op.Alter? && op.id == id && op.change.Update? && op.change.active == Some(true))
  }

  lemma {:induction false} DeadKeysStayDead(m: Memory, ops: seq<Op>, id: ClientId, hash: Hash)
    requires Dead(m.rows, id, hash) && forall i :: 0 <= i < |ops| ==> !Restores(ops[i], id, hash)
    ensures Dead(Run(m, ops).rows, id, hash)
  {
    if |ops| > 0 {
      DeadKeysStayDead(m, ops[..|ops| - 1], id, hash);
    }
  }

  lemma {:induction false} RunConcat(m: Memory, a: seq<Op>, b: seq<Op>)
    ensures Run(m, a + b) == Run(Run(m, a), b)
  {
    if |b| == 0 {
      assert a + b == a;
    } else {
      assert (a + b)[..|a + b| - 1] == a + b[..|b| - 1];
      RunConcat(m, a, b[..|b| - 1]);
    }
  }

  /** Once a rotation or a disable has returned, the key the client had before it
      resolves to nothing, until something restores that very key. */
  lemma RevokedKeyNeverResolves(rows: Rows, ops: seq<Op>, id: ClientId, c: Change, more: seq<Op>, now: Time)
    requires var m := Run(Memory(rows, map[]), ops);
             && id in m.rows && Accepts(m.rows, id, c)
             && ((c.Rotate? && c.hash != m.rows[id].hash) || (c.Update? && c.active == Some(false)))
             && forall i :: 0 <= i < |more| ==> !Restores(more[i], id, m.rows[id].hash)
    ensures var key := Run(Memory(rows, map[]), ops).rows[id].hash;
            Answer(Run(Memory(rows, map[]), ops + [Alter(id, c)] + more), key, now) == None
  {
    var m0 := Memory(rows, map[]);
    var m := Run(m0, ops);
    var key := m.rows[id].hash;
    assert (ops + [Alter(id, c)])[..|ops|] == ops;
    var m' := Run(m0, ops + [Alter(id, c)]);
    assert m' == Do(m, Alter(id, c)) && Dead(m'.rows, id, key);
    DeadKeysStayDead(m', more, id, key);
    RunConcat(m0, ops + [Alter(id, c)], more);
    CacheIsTransparent(rows, ops + [Alter(id, c)] + more, key, now);
  }

  // ---- What interleaving breaks --------------------------------------------

  const ACME: Client := Client("acme", true, None)
  const BEFORE: Rows := map[1 := Row("old", ACME)]

  lemma Extend(es: seq<Event>, e: Event)
    ensures Reached(BEFORE, es + [e]) == Apply(Reached(BEFORE, es), e)
  {
    assert (es + [e])[..|es|] == es;
  }

  /** A resolve has its answer, but not yet cached it. */
  lemma RunToAnswer() returns (es: seq<Event>)
    ensures Reached(BEFORE, es) == State(0, BEFORE, map[], map[0 := Filling("old", Some(ACME), 0, 0)], [])
  {
    var (look, go) := (Resolve(0, "old"), Step(0, false));
    Extend([], look);
    Extend([] + [look], go);
    es := [] + [look] + [go];
    assert BEFORE[1].hash == "old";
  }

  /** Then a rotation gets as far as its write, */
  lemma RunToRewrite() returns (es: seq<Event>)
    ensures Reached(BEFORE, es)
            == State(0, BEFORE, map[], map[0 := Filling("old", Some(ACME), 0, 0), 1 := Writing(1, Rotate("new"))], [])
  {
    var run := RunToAnswer();
    var (rotate, go) := (Admin(1, 1, Rotate("new")), Step(1, false));
    Extend(run, rotate);
    Extend(run + [rotate], go);
    es := run + [rotate] + [go];
  }

  /** and on to its end. */
  lemma RunToRotated() returns (es: seq<Event>)
    ensures Reached(BEFORE, es)
            == State(0, map[1 := Row("new", ACME)], map[], map[0 := Filling("old", Some(ACME), 0, 0), 1 := Done], [])
  {
    var run := RunToRewrite();
    var go := Step(1, false);
    Extend(run, go);
    Extend(run + [go], go);
    es := run + [go] + [go];
    assert Rewritten(BEFORE, 1, Rotate("new")) == map[1 := Row("new", ACME)];
  }

  /** A resolve answered before the rotation and cached after it: the rotation is
      done, the repository no longer knows the key, and the key still resolves. */
  lemma InFlightResolveRevivesRotatedKey() returns (es: seq<Event>)
    ensures var s := Reached(BEFORE, es);
            && FindActive(s.rows, "old") == None && 1 in s.tasks && s.tasks[1] == Done
            && 2 in s.tasks && s.tasks[2] == Task.Returned("old", Some(ACME), 0)
  {
    var run := RunToRotated();
    var (fill, look) := (Step(0, false), Resolve(2, "old"));
    Extend(run, fill);
    Extend(run + [fill], look);
    es := run + [fill] + [look];
  }
}
