/** Resolving a client from its API key through a short-lived cache
    (src/clients/clients.service.ts). Keys appear as their hashes. */
module ApiKeyCache {
  import opened Common

  type ClientId = nat
  type Hash = string
  type Time = int   // milliseconds
  type TaskId = nat

  const TTL_MS: int := 30_000

  datatype Client = Client(name: string, active: bool, webhookUrl: Option<string>)

  datatype Row = Row(hash: Hash, client: Client)

  /** The clients table, with its UNIQUE constraint on api_key_hash. */
  type Rows = r: map<ClientId, Row> | HashesUnique(r) witness map[]

  predicate HashesUnique(r: map<ClientId, Row>) {
    forall a, b :: a in r && b in r && r[a].hash == r[b].hash ==> a == b
  }

  predicate InUse(rows: Rows, hash: Hash) {
    exists id :: id in rows && rows[id].hash == hash
  }

  /** findActiveByApiKeyHash. */
  function FindActive(rows: Rows, hash: Hash): (r: Option<Client>)
    ensures r.Some? <==> exists id :: id in rows && rows[id].hash == hash && rows[id].client.active
    ensures forall id :: id in rows && rows[id].hash == hash && rows[id].client.active ==> r == Some(rows[id].client)
  {
    if exists id :: id in rows && rows[id].hash == hash && rows[id].client.active then
      var id :| id in rows && rows[id].hash == hash && rows[id].client.active;
      Some(rows[id].client)
    else None
  }

  /** The key is either nobody's, or this disabled client's. */
  ghost predicate Dead(rows: Rows, id: ClientId, hash: Hash) {
    forall k :: k in rows && rows[k].hash == hash ==> k == id && !rows[k].client.active
  }

  /** What updateClient and rotateApiKey do to the row. */
  datatype Change =
    | Update(name: Option<string>, active: Option<bool>, webhookUrl: Option<Option<string>>)
    | Rotate(hash: Hash)

  function Or<T>(o: Option<T>, d: T): T {
    if o.Some? then o.value else d
  }

  function Changed(row: Row, c: Change): Row {
    match c
    case Update(name, active, url) => row.(client := Client(Or(name, row.client.name), Or(active, row.client.active), Or(url, row.client.webhookUrl)))
    case Rotate(hash) => row.(hash := hash)
  }

  /** A change the UNIQUE constraint accepts. */
  predicate Accepts(rows: Rows, id: ClientId, c: Change) {
    c.Rotate? ==> forall other :: other in rows && other != id ==> rows[other].hash != c.hash
  }

  function Rewritten(rows: Rows, id: ClientId, c: Change): Rows
    requires id in rows && Accepts(rows, id, c)
  {
    rows[id := Changed(rows[id], c)]
  }

  // ---- The cache -----------------------------------------------------------

  datatype Entry = Entry(client: Client, expiresAt: Time)

  type Cache = map<Hash, Entry>

  function Hit(cache: Cache, hash: Hash, now: Time): Option<Client> {
    if hash in cache && cache[hash].expiresAt > now then Some(cache[hash].client) else None
  }

  function Filled(cache: Cache, hash: Hash, answer: Option<Client>, now: Time): Cache {
    if answer.Some? then cache[hash := Entry(answer.value, now + TTL_MS)] else cache - {hash}
  }

  /** A fill answers for its key, and only for it, for 30 seconds; an empty answer
      empties its place. */
  lemma FillLasts(cache: Cache, hash: Hash, answer: Option<Client>, filled: Time, other: Hash, now: Time)
    ensures Hit(Filled(cache, hash, answer, filled), hash, now) == if answer.Some? && now < filled + 30_000 then answer else None
    ensures other != hash ==> Hit(Filled(cache, hash, answer, filled), other, now) == Hit(cache, other, now)
  {
  }

  /** An update writes what it is given and keeps the rest; a rotation only replaces the
      key. Of the changes only a rotation to a key in use is refused. */
  lemma ChangesAreExact(rows: Rows, id: ClientId, c: Change)
    requires id in rows
    ensures var row := Changed(rows[id], c);
            && (c.Rotate? ==> row == Row(c.hash, rows[id].client))
            && (c.Update? ==>
                  && row.hash == rows[id].hash
                  && row.client.name == (if c.name == None then rows[id].client.name else c.name.value)
                  && row.client.active == (if c.active == None then rows[id].client.active else c.active.value)
                  && row.client.webhookUrl == (if c.webhookUrl == None then rows[id].client.webhookUrl else c.webhookUrl.value))
    ensures !Accepts(rows, id, c) <==> c.Rotate? && exists k :: k in rows && k != id && rows[k].hash == c.hash
  {
  }

  // ---- Any interleaving ----------------------------------------------------

  datatype Task =
    | Done
    | Reading(hash: Hash, started: Time)
    | Filling(hash: Hash, answer: Option<Client>, started: Time, at: Time)
    | Returned(hash: Hash, answer: Option<Client>, at: Time)
    | Requiring(id: ClientId, change: Change)
    | Writing(id: ClientId, change: Change)
    | Clearing

  /** One repository read of a resolve: asked, answered, and put in the cache. */
  datatype Read = Read(hash: Hash, answer: Option<Client>, started: Time, at: Time, filled: Time)

  /** One service instance. `Outside` is any change another instance makes. */
  datatype State = State(now: Time, rows: Rows, cache: Cache, tasks: map<TaskId, Task>, fetched: seq<Read>)

  datatype Event =
    | Tick(ms: nat)
    | Outside(table: Rows)
    | Resolve(tid: TaskId, hash: Hash)
    | Admin(tid: TaskId, id: ClientId, change: Change)
    | Step(tid: TaskId, fails: bool)

  function Proceed(s: State, tid: TaskId, t: Task): State {
    s.(tasks := s.tasks[tid := t])
  }

  function StepOf(s: State, tid: TaskId, t: Task, fails: bool): State {
    match t
    case Done => s
    case Returned(_, _, _) => s
    case Reading(hash, started) =>
      Proceed(s, tid, if fails then Done else Filling(hash, FindActive(s.rows, hash), started, s.now))
    case Filling(hash, answer, started, at) =>
      Proceed(s.(cache := Filled(s.cache, hash, answer, s.now), fetched := s.fetched + [Read(hash, answer, started, at, s.now)]),
              tid, Returned(hash, answer, s.now))
    case Requiring(id, c) => Proceed(s, tid, if fails || id !in s.rows then Done else Writing(id, c))
    case Writing(id, c) =>
      if fails || id !in s.rows || !Accepts(s.rows, id, c) then Proceed(s, tid, Done)
      else Proceed(s.(rows := Rewritten(s.rows, id, c)), tid, Clearing)
    case Clearing => Proceed(s.(cache := map[]), tid, Done)
  }

  function Apply(s: State, e: Event): State {
    match e
    case Tick(ms) => s.(now := s.now + ms)
    case Outside(table) => s.(rows := table)
    case Resolve(tid, hash) =>
      if tid in s.tasks then s
      else
        var hit := Hit(s.cache, hash, s.now);
        Proceed(s, tid, if hit.Some? then Returned(hash, hit, s.now) else Reading(hash, s.now))
    case Admin(tid, id, c) => if tid in s.tasks then s else Proceed(s, tid, Requiring(id, c))
    case Step(tid, fails) => if tid in s.tasks then StepOf(s, tid, s.tasks[tid], fails) else s
  }

  function Booted(rows: Rows): State {
    State(0, rows, map[], map[], [])
  }

  function Reached(rows: Rows, es: seq<Event>): State {
    if |es| == 0 then Booted(rows) else Apply(Reached(rows, es[..|es| - 1]), es[|es| - 1])
  }

  /** At some moment of the run, when the clock showed `at`, this was the
      repository's answer. */
  ghost predicate WasAnswer(rows: Rows, es: seq<Event>, hash: Hash, answer: Option<Client>, at: Time) {
    exists m :: 0 <= m <= |es| && Reached(rows, es[..m]).now == at && FindActive(Reached(rows, es[..m]).rows, hash) == answer
  }

  ghost predicate Genuine(rows: Rows, es: seq<Event>, r: Read) {
    r.started <= r.at <= r.filled <= Reached(rows, es).now && WasAnswer(rows, es, r.hash, r.answer, r.at)
  }

  /** A client handed out at `t` comes from a read that is recent enough. */
  ghost predicate Recent(fetched: seq<Read>, hash: Hash, client: Client, t: Time) {
    exists k :: 0 <= k < |fetched| && fetched[k].hash == hash && fetched[k].answer == Some(client)
                && t - fetched[k].at < TTL_MS + (fetched[k].filled - fetched[k].started)
  }

  ghost predicate Backed(fetched: seq<Read>, hash: Hash, entry: Entry) {
    exists k :: 0 <= k < |fetched| && fetched[k].hash == hash && fetched[k].answer == Some(entry.client)
                && entry.expiresAt == fetched[k].filled + TTL_MS
  }

  ghost predicate TaskOk(rows: Rows, es: seq<Event>, s: State, t: Task) {
    && (t.Reading? ==> t.started <= s.now)
    && (t.Filling? ==> t.started <= t.at <= s.now && WasAnswer(rows, es, t.hash, t.answer, t.at))
    && (t.Returned? && t.answer.Some? ==> Recent(s.fetched, t.hash, t.answer.value, t.at))
  }

  ghost predicate Inv(rows: Rows, es: seq<Event>, s: State) {
    && (forall k :: 0 <= k < |s.fetched| ==> Genuine(rows, es, s.fetched[k]))
    && (forall hash :: hash in s.cache ==> Backed(s.fetched, hash, s.cache[hash]))
    && (forall t :: t in s.tasks ==> TaskOk(rows, es, s, s.tasks[t]))
  }

  lemma WasAnswerLater(rows: Rows, es: seq<Event>, e: Event, hash: Hash, answer: Option<Client>, at: Time)
    requires WasAnswer(rows, es, hash, answer, at)
    ensures WasAnswer(rows, es + [e], hash, answer, at)
  {
    var m :| 0 <= m <= |es| && Reached(rows, es[..m]).now == at && FindActive(Reached(rows, es[..m]).rows, hash) == answer;
    assert (es + [e])[..m] == es[..m];
  }

  lemma IsAnswerNow(rows: Rows, es: seq<Event>, hash: Hash)
    ensures var s := Reached(rows, es); WasAnswer(rows, es, hash, FindActive(s.rows, hash), s.now)
  {
    assert es[..|es|] == es;
  }

  lemma RecentLater(fetched: seq<Read>, more: seq<Read>, hash: Hash, client: Client, t: Time)
    requires Recent(fetched, hash, client, t)
    ensures Recent(fetched + more, hash, client, t)
  {
    var k :| 0 <= k < |fetched| && fetched[k].hash == hash && fetched[k].answer == Some(client)
             && t - fetched[k].at < TTL_MS + (fetched[k].filled - fetched[k].started);
    assert (fetched + more)[k] == fetched[k];
  }

  lemma BackedLater(fetched: seq<Read>, more: seq<Read>, hash: Hash, entry: Entry)
    requires Backed(fetched, hash, entry)
    ensures Backed(fetched + more, hash, entry)
  {
    var k :| 0 <= k < |fetched| && fetched[k].hash == hash && fetched[k].answer == Some(entry.client)
             && entry.expiresAt == fetched[k].filled + TTL_MS;
    assert (fetched + more)[k] == fetched[k];
  }

  /** Whatever happens next, the facts about everything untouched remain. */
  lemma OldFactsRemain(rows: Rows, es: seq<Event>, e: Event, s: State, s': State, more: seq<Read>)
    requires s == Reached(rows, es) && s' == Apply(s, e) && Reached(rows, es + [e]) == s' && Inv(rows, es, s)
    requires s'.now >= s.now && s'.fetched == s.fetched + more
    ensures forall k :: 0 <= k < |s.fetched| ==> Genuine(rows, es + [e], s.fetched[k])
    ensures forall hash :: hash in s.cache ==> Backed(s'.fetched, hash, s.cache[hash])
    ensures forall t :: t in s.tasks ==> TaskOk(rows, es + [e], s', s.tasks[t])
  {
    forall k | 0 <= k < |s.fetched|
      ensures Genuine(rows, es + [e], s.fetched[k])
    {
      var r := s.fetched[k];
      WasAnswerLater(rows, es, e, r.hash, r.answer, r.at);
    }
    forall hash | hash in s.cache
      ensures Backed(s'.fetched, hash, s.cache[hash])
    {
      BackedLater(s.fetched, more, hash, s.cache[hash]);
    }
    forall t | t in s.tasks
      ensures TaskOk(rows, es + [e], s', s.tasks[t])
    {
      var u := s.tasks[t];
      if u.Filling? {
        WasAnswerLater(rows, es, e, u.hash, u.answer, u.at);
      } else if u.Returned? && u.answer.Some? {
        RecentLater(s.fetched, more, u.hash, u.answer.value, u.at);
      }
    }
  }

  lemma FillKeepsInv(rows: Rows, es: seq<Event>, e: Event, s: State, t: Task)
    requires s == Reached(rows, es) && Reached(rows, es + [e]) == Apply(s, e) && Inv(rows, es, s)
    requires e.Step? && e.tid in s.tasks && s.tasks[e.tid] == t && t.Filling?
    ensures Inv(rows, es + [e], Apply(s, e))
  {
    var r := Read(t.hash, t.answer, t.started, t.at, s.now);
    var s' := Apply(s, e);
    FillShape(s, e, t, r);
    OldFactsRemain(rows, es, e, s, s', [r]);
    assert s'.fetched[|s.fetched|] == r;
    assert Genuine(rows, es + [e], r) by { WasAnswerLater(rows, es, e, t.hash, t.answer, t.at); }
    forall hash | hash in s'.cache
      ensures Backed(s'.fetched, hash, s'.cache[hash])
    {
    }
    forall u | u in s'.tasks
      ensures TaskOk(rows, es + [e], s', s'.tasks[u])
    {
      if u != e.tid {
        assert TaskOk(rows, es + [e], s', s.tasks[u]);
      }
    }
  }

  lemma FillShape(s: State, e: Event, t: Task, r: Read)
    requires e.Step? && e.tid in s.tasks && s.tasks[e.tid] == t && t.Filling?
    requires t.started <= t.at <= s.now && r == Read(t.hash, t.answer, t.started, t.at, s.now)
    ensures var s' := Apply(s, e);
            && s'.now == s.now && s'.fetched == s.fetched + [r]
            && s'.tasks == s.tasks[e.tid := Returned(t.hash, t.answer, s.now)]
            && (forall hash :: hash in s'.cache ==> (hash in s.cache && s'.cache[hash] == s.cache[hash]) || Backed(s'.fetched, hash, s'.cache[hash]))
            && (t.answer.Some? ==> Recent(s'.fetched, t.hash, t.answer.value, s.now))
  {
    assert Apply(s, e).fetched[|s.fetched|] == r;
  }

  lemma HitIsRecent(rows: Rows, es: seq<Event>, s: State, hash: Hash)
    requires s == Reached(rows, es) && Inv(rows, es, s) && Hit(s.cache, hash, s.now).Some?
    ensures Recent(s.fetched, hash, s.cache[hash].client, s.now)
  {
    var entry := s.cache[hash];
    assert Backed(s.fetched, hash, entry);
    var k :| 0 <= k < |s.fetched| && s.fetched[k].hash == hash && s.fetched[k].answer == Some(entry.client)
             && entry.expiresAt == s.fetched[k].filled + TTL_MS;
    assert Genuine(rows, es, s.fetched[k]);
  }

  lemma {:induction false} RunKeepsInv(rows: Rows, es: seq<Event>)
    ensures Inv(rows, es, Reached(rows, es))
  {
    if |es| > 0 {
      var (before, e) := (es[..|es| - 1], es[|es| - 1]);
      var s := Reached(rows, before);
      assert es == before + [e];
      RunKeepsInv(rows, before);
      if e.Step? && e.tid in s.tasks && s.tasks[e.tid].Filling? {
        FillKeepsInv(rows, before, e, s, s.tasks[e.tid]);
      } else {
        OtherKeepsInv(rows, before, e, s);
      }
    }
  }

  /** What a task may newly know after an event that fills nothing. */
  ghost predicate NewlyOk(s: State, t: Task) {
    && (t.Reading? ==> t.started <= s.now)
    && (t.Filling? ==> t.started <= s.now && t.answer == FindActive(s.rows, t.hash) && t.at == s.now)
    && (t.Returned? && t.answer.Some? ==> Hit(s.cache, t.hash, s.now) == t.answer && t.at == s.now)
  }

  lemma QuietShape(s: State, e: Event)
    requires !(e.Step? && e.tid in s.tasks && s.tasks[e.tid].Filling?)
    requires forall t :: t in s.tasks && s.tasks[t].Reading? ==> s.tasks[t].started <= s.now
    ensures var s' := Apply(s, e);
            && s'.now >= s.now && s'.fetched == s.fetched && (s'.cache == s.cache || s'.cache == map[])
            && forall t :: t in s'.tasks ==> (t in s.tasks && s'.tasks[t] == s.tasks[t]) || NewlyOk(s, s'.tasks[t])
  {
    if e.Step? && e.tid in s.tasks {
      QuietStep(s, e.tid, s.tasks[e.tid], e.fails);
    }
  }

  lemma QuietStep(s: State, tid: TaskId, t: Task, fails: bool)
    requires !t.Filling? && (t.Reading? ==> t.started <= s.now)
    ensures var s' := StepOf(s, tid, t, fails);
            && s'.now == s.now && s'.fetched == s.fetched && (s'.cache == s.cache || s'.cache == map[])
            && (s'.tasks == s.tasks || (s'.tasks == s.tasks[tid := s'.tasks[tid]] && NewlyOk(s, s'.tasks[tid])))
  {
  }

  lemma NewTaskOk(rows: Rows, es: seq<Event>, e: Event, s: State, s': State, t: Task)
    requires s == Reached(rows, es) && Inv(rows, es, s) && NewlyOk(s, t) && s'.now >= s.now && s'.fetched == s.fetched
    ensures TaskOk(rows, es + [e], s', t)
  {
    if t.Filling? {
      IsAnswerNow(rows, es, t.hash);
      WasAnswerLater(rows, es, e, t.hash, t.answer, s.now);
    } else if t.Returned? && t.answer.Some? {
      HitIsRecent(rows, es, s, t.hash);
    }
  }

  lemma OtherKeepsInv(rows: Rows, es: seq<Event>, e: Event, s: State)
    requires s == Reached(rows, es) && Reached(rows, es + [e]) == Apply(s, e) && Inv(rows, es, s)
    requires !(e.Step? && e.tid in s.tasks && s.tasks[e.tid].Filling?)
    ensures Inv(rows, es + [e], Apply(s, e))
  {
    var s' := Apply(s, e);
    assert forall t :: t in s.tasks ==> TaskOk(rows, es, s, s.tasks[t]);
    QuietShape(s, e);
    assert s.fetched + [] == s.fetched;
    OldFactsRemain(rows, es, e, s, s', []);
    forall t | t in s'.tasks
      ensures TaskOk(rows, es + [e], s', s'.tasks[t])
    {
      if t in s.tasks && s'.tasks[t] == s.tasks[t] {
        assert TaskOk(rows, es + [e], s', s.tasks[t]);
      } else {
        NewTaskOk(rows, es, e, s, s', s'.tasks[t]);
      }
    }
  }

  /** Under any interleaving of resolves, updates, rotations and changes made by
      other instances, a resolved client was the repository's own answer for that key
      less than 30,000 ms, plus the duration of the read that fetched it, ago. */
  lemma ResolvedClientIsRecent(rows: Rows, es: seq<Event>, tid: TaskId) returns (m: nat, r: Read)
    requires tid in Reached(rows, es).tasks && Reached(rows, es).tasks[tid].Returned? && Reached(rows, es).tasks[tid].answer.Some?
    ensures var t := Reached(rows, es).tasks[tid];
            && m <= |es| && FindActive(Reached(rows, es[..m]).rows, t.hash) == t.answer
            && r in Reached(rows, es).fetched && r.hash == t.hash && r.at == Reached(rows, es[..m]).now
            && r.started <= r.at <= r.filled && t.at - r.at < 30_000 + (r.filled - r.started)
  {
    RunKeepsInv(rows, es);
    var s := Reached(rows, es);
    var t := s.tasks[tid];
    assert Recent(s.fetched, t.hash, t.answer.value, t.at);
    var k :| 0 <= k < |s.fetched| && s.fetched[k].hash == t.hash && s.fetched[k].answer == t.answer
             && t.at - s.fetched[k].at < TTL_MS + (s.fetched[k].filled - s.fetched[k].started);
    r := s.fetched[k];
    assert Genuine(rows, es, r);
    m :| 0 <= m <= |es| && Reached(rows, es[..m]).now == r.at && FindActive(Reached(rows, es[..m]).rows, r.hash) == r.answer;
  }
}
