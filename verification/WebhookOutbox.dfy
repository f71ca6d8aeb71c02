/** The webhook outbox table and one delivery (src/webhooks/webhook.service.ts). */
module WebhookOutbox {
  import opened Common

  type Id = nat
  type Time = int   // milliseconds, by the database clock

  /** STUCK_DELIVERY_TIMEOUT. */
  const LEASE_MS: int := 300_000

  datatype Status = Pending | Delivering | Delivered | Failed | Skipped

  datatype Row = Row(status: Status, attempts: nat, nextAt: Time, lastError: Option<string>, updatedAt: Time)

  predicate Terminal(status: Status) {
    status in {Delivered, Failed, Skipped}
  }

  function Enqueued(now: Time): Row {
    Row(Pending, 0, now, None, now)
  }

  // ---- Statements ----------------------------------------------------------

  predicate Stuck(row: Row, now: Time) {
    row.status == Delivering && row.updatedAt < now - LEASE_MS
  }

  function Recovered(row: Row, now: Time): Row {
    if Stuck(row, now) then row.(status := Pending, updatedAt := now) else row
  }

  predicate Due(row: Row, now: Time) {
    row.status == Pending && row.nextAt <= now
  }

  function Claimed(row: Row, now: Time): Row {
    row.(status := Delivering, updatedAt := now)
  }

  /** What one delivery writes at its end. */
  datatype Write =
    | SetStatus(status: Status, attempts: nat, error: Option<string>)
    | Reschedule(attempts: nat, reason: string)

  const RETRY_DELAYS_MS: seq<int> := [1_000, 5_000, 30_000]

  /** The last delay is repeated. */
  function RetryDelay(attempts: nat): int {
    RETRY_DELAYS_MS[if attempts <= 1 then 0 else if attempts - 1 < |RETRY_DELAYS_MS| then attempts - 1 else |RETRY_DELAYS_MS| - 1]
  }

  function Written(row: Row, w: Write, now: Time): Row {
    match w
    case SetStatus(status, attempts, error) => row.(status := status, attempts := attempts, lastError := error, updatedAt := now)
    case Reschedule(attempts, reason) =>
      row.(status := Pending, attempts := attempts, lastError := Some(reason), nextAt := now + RetryDelay(attempts), updatedAt := now)
  }

  // ---- One delivery --------------------------------------------------------

  /** Loading the client: an error, no active webhook endpoint, or an endpoint. */
  datatype Load = LoadError(message: string) | NoEndpoint | Endpoint

  datatype Response = Http(code: nat) | NetworkError(message: string)

  predicate IsOk(r: Response) {
    r.Http? && 200 <= r.code <= 299
  }

  predicate IsRetryableStatus(code: nat) {
    code == 429 || code >= 500
  }

  predicate Retryable(r: Response) {
    r.Http? ==> IsRetryableStatus(r.code)
  }

  function MaxAttempts(retryAttempts: int): nat {
    if retryAttempts > 1 then retryAttempts else 1
  }

  /** The write that ends a delivery before any POST, if it ends there. The
      reschedule after a failed load does not look at the attempt limit. */
  function AfterLoad(attempts: nat, l: Load): Option<Write> {
    match l
    case LoadError(m) => Some(Reschedule(attempts + 1, m))
    case NoEndpoint => Some(SetStatus(Skipped, attempts, Some("Client has no active webhook endpoint.")))
    case Endpoint => None
  }

  function RetryOrFail(attempts: nat, max: nat, retryable: bool, error: string): Write {
    if !retryable || attempts >= max then SetStatus(Failed, attempts, Some(error)) else Reschedule(attempts, error)
  }

  function ErrorText(r: Response): string {
    if r.NetworkError? then r.message else "HTTP error"
  }

  /** The write after a POST was answered. */
  function AfterPost(attempts: nat, max: nat, r: Response): Write {
    if IsOk(r) then SetStatus(Delivered, attempts + 1, None)
    else RetryOrFail(attempts + 1, max, Retryable(r), ErrorText(r))
  }

  /** The whole delivery of a claimed row, when every statement succeeds. */
  function Outcome(row: Row, max: nat, l: Load, r: Response, now: Time): Row {
    var w := AfterLoad(row.attempts, l);
    Written(row, if w.Some? then w.value else AfterPost(row.attempts, max, r), now)
  }

  /** What one delivery with an endpoint means for its row, by the answer's code alone:
      delivered on 200..299; failed when the answer is another code below 500 except
      429, or the attempts now made reach the limit; otherwise pending again, due after
      1 s, 5 s or, from the third attempt on, 30 s. */
  lemma AnswerDecides(row: Row, max: nat, r: Response, now: Time)
    ensures var row' := Outcome(row, max, Endpoint, r, now);
            var made := row.attempts + 1;
            var good := r.Http? && 200 <= r.code <= 299;
            var final := r.Http? && r.code < 500 && r.code != 429;
            && row'.attempts == made && row'.updatedAt == now
            && (row'.status == Delivered <==> good)
            && (row'.status == Failed <==> !good && (final || made >= max))
            && (row'.status == Pending <==> !good && !final && made < max)
            && (row'.status == Pending ==> row'.nextAt == now + if made == 1 then 1_000 else if made == 2 then 5_000 else 30_000)
            && (good ==> row'.lastError.None?) && (!good ==> row'.lastError.Some?)
  {
  }

  /** Without an endpoint the row is skipped and keeps its attempts; when the client
      cannot be loaded it is pending again, due after the same delays, whatever the limit. */
  lemma LoadDecides(row: Row, max: nat, l: Load, r: Response, now: Time)
    requires !l.Endpoint?
    ensures var row' := Outcome(row, max, l, r, now);
            && (l.NoEndpoint? ==> row'.status == Skipped && row'.attempts == row.attempts && row'.nextAt == row.nextAt && row'.lastError.Some?)
            && (l.LoadError? ==>
                  && row'.status == Pending && row'.attempts == row.attempts + 1 && row'.lastError == Some(l.message)
                  && row'.nextAt == now + if row.attempts == 0 then 1_000 else if row.attempts == 1 then 5_000 else 30_000)
  {
  }

  /** Recovery returns a row to pending exactly when it has been delivering, untouched,
      for more than five minutes; claiming takes pending rows whose time has come. */
  lemma RecoveryAndClaim(row: Row, now: Time)
    ensures var row' := Recovered(row, now);
            if row.status == Delivering && now - row.updatedAt > 300_000
            then row' == Row(Pending, row.attempts, row.nextAt, row.lastError, now) else row' == row
    ensures Due(row, now) <==> row.status == Pending && now >= row.nextAt
    ensures Claimed(row, now) == Row(Delivering, row.attempts, row.nextAt, row.lastError, now)
  {
  }

  /** The attempt limit is the configured number, and at least one. */
  lemma LimitIsAtLeastOne(retryAttempts: int)
    ensures MaxAttempts(retryAttempts) >= 1 && MaxAttempts(retryAttempts) >= retryAttempts
    ensures MaxAttempts(retryAttempts) == 1 || MaxAttempts(retryAttempts) == retryAttempts
  {
  }

  // ---- The table -----------------------------------------------------------

  type Rows = map<Id, Row>

  function AllRecovered(rows: Rows, now: Time): Rows {
    map id | id in rows :: Recovered(rows[id], now)
  }

  function DueIds(rows: Rows, now: Time, locked: set<Id>): set<Id> {
    set id | id in rows && Due(rows[id], now) && id !in locked
  }

  function AllClaimed(rows: Rows, ids: set<Id>, now: Time): Rows {
    map id | id in rows :: if id in ids then Claimed(rows[id], now) else rows[id]
  }

  /** The oldest due rows not locked by another dispatcher, at most `batch`. */
  ghost predicate OldestDue(rows: Rows, now: Time, batch: nat, locked: set<Id>, chosen: seq<Id>) {
    var due := DueIds(rows, now, locked);
    && NoDup(chosen) && Elems(chosen) <= due
    && |chosen| == (if batch < |due| then batch else |due|)
    && forall a, b :: a in chosen && b in due && b !in chosen ==> NotLater(rows, a, b)
  }

  predicate NotLater(rows: Rows, a: Id, b: Id) {
    a in rows && b in rows ==> rows[a].nextAt <= rows[b].nextAt
  }

  ghost predicate Oldest(rows: Rows, a: Id, ids: set<Id>) {
    a in ids && forall b :: b in ids ==> NotLater(rows, a, b)
  }

  lemma {:induction false} OldestExists(rows: Rows, ids: set<Id>)
    requires ids != {} && ids <= rows.Keys
    ensures exists a :: Oldest(rows, a, ids)
    decreases |ids|
  {
    var x :| x in ids;
    if ids == {x} {
      assert Oldest(rows, x, ids);
    } else {
      var rest := ids - {x};
      OldestExists(rows, rest);
      var a :| Oldest(rows, a, rest);
      var first := if NotLater(rows, a, x) then a else x;
      forall b | b in ids
        ensures NotLater(rows, first, b)
      {
        assert b == x || (b in rest && NotLater(rows, a, b));
      }
      assert Oldest(rows, first, ids);
    }
  }

  lemma NoDupAppend(chosen: seq<Id>, id: Id)
    requires NoDup(chosen) && id !in chosen
    ensures NoDup(chosen + [id]) && Elems(chosen + [id]) == Elems(chosen) + {id}
  {
    ElemsAppend(chosen, id);
  }

  class Outbox {
    var rows: Rows
    const max: nat

    constructor (retryAttempts: int)
      ensures rows == map[] && max == MaxAttempts(retryAttempts)
    {
      rows := map[];
      max := MaxAttempts(retryAttempts);
    }

    /** A pay-in without a client has no webhook, and a failing insert is only logged:
        the caller never sees either. */
    method Enqueue(clientId: Option<string>, id: Id, insertFails: bool, now: Time)
      requires id !in rows
      modifies this
      ensures rows == if clientId.None? || insertFails then old(rows) else old(rows)[id := Enqueued(now)]
    {
      if clientId.None? {
        return;
      }
      if !insertFails {
        rows := rows[id := Enqueued(now)];
      }
    }

    method RecoverStuck(now: Time)
      modifies this
      ensures rows == AllRecovered(old(rows), now)
    {
      rows := map id | id in rows :: Recovered(rows[id], now);
    }

    method ClaimDue(now: Time, batch: nat, locked: set<Id>) returns (chosen: seq<Id>)
      modifies this
      ensures OldestDue(old(rows), now, batch, locked, chosen)
      ensures rows == AllClaimed(old(rows), Elems(chosen), now)
    {
      chosen := [];
      var table, due := rows, DueIds(rows, now, locked);
      var rest := due;
      while |chosen| < batch && rest != {}
        invariant NoDup(chosen) && Elems(chosen) + rest == due && Elems(chosen) !! rest
        invariant |chosen| + |rest| == |due| && |chosen| <= batch
        invariant forall a, b :: a in Elems(chosen) && b in rest ==> NotLater(table, a, b)
        decreases rest
      {
        OldestExists(table, rest);
        var id :| id in rest && forall b :: b in rest ==> NotLater(table, id, b);
        NoDupAppend(chosen, id);
        chosen, rest := chosen + [id], rest - {id};
      }
      rows := AllClaimed(table, Elems(chosen), now);
      assert forall a :: a in chosen ==> a in Elems(chosen);
    }

    method SaveStatus(id: Id, status: Status, attempts: nat, error: Option<string>, now: Time)
      requires id in rows
      modifies this
      ensures rows == old(rows)[id := Written(old(rows)[id], SetStatus(status, attempts, error), now)]
    {
      rows := rows[id := rows[id].(status := status, attempts := attempts, lastError := error, updatedAt := now)];
    }

    method Retry(id: Id, attempts: nat, reason: string, now: Time)
      requires id in rows
      modifies this
      ensures rows == old(rows)[id := Written(old(rows)[id], Reschedule(attempts, reason), now)]
    {
      var delay := RetryDelay(attempts);
      rows := rows[id := rows[id].(status := Pending, attempts := attempts, lastError := Some(reason), nextAt := now + delay, updatedAt := now)];
    }

    method DeliverOnce(id: Id, attempts: nat, l: Load, r: Response, now: Time)
      requires id in rows && rows[id].attempts == attempts
      modifies this
      ensures rows == old(rows)[id := Outcome(old(rows)[id], max, l, r, now)]
      ensures l.Endpoint? ==>
                && (rows[id].status == Delivered <==> r.Http? && 200 <= r.code <= 299)
                && (rows[id].status == Pending <==> attempts + 1 < max && (r.NetworkError? || r.code == 429 || r.code >= 500))
    {
      AnswerDecides(rows[id], max, r, now);
      if l.LoadError? {
        Retry(id, attempts + 1, l.message, now);
        return;
      }
      if l.NoEndpoint? {
        SaveStatus(id, Skipped, attempts, Some("Client has no active webhook endpoint."), now);
        return;
      }
      var made := attempts + 1;
      if IsOk(r) {
        SaveStatus(id, Delivered, made, None, now);
        return;
      }
      if !Retryable(r) || made >= max {
        SaveStatus(id, Failed, made, Some(ErrorText(r)), now);
        return;
      }
      Retry(id, made, ErrorText(r), now);
    }

    /** One uninterrupted dispatch: every claimed row goes through one delivery, and
        no other row changes but by recovery. */
    method DispatchDueEvents(now: Time, batch: nat, locked: set<Id>, load: Id -> Load, respond: Id -> Response) returns (chosen: seq<Id>)
      modifies this
      ensures OldestDue(AllRecovered(old(rows), now), now, batch, locked, chosen)
      ensures rows.Keys == old(rows).Keys
      ensures forall id :: id in rows ==>
                rows[id] == if id in chosen then Outcome(Claimed(Recovered(old(rows)[id], now), now), max, load(id), respond(id), now)
                            else Recovered(old(rows)[id], now)
    {
      RecoverStuck(now);
      chosen := ClaimDue(now, batch, locked);
      ghost var start := rows;
      for k := 0 to |chosen|
        invariant rows.Keys == start.Keys
        invariant forall id :: id in rows ==>
                    rows[id] == if id in chosen[..k] then Outcome(start[id], max, load(id), respond(id), now) else start[id]
      {
        var id := chosen[k];
        assert id in Elems(chosen) && id !in chosen[..k];
        assert chosen[..k + 1] == chosen[..k] + [id];
        DeliverOnce(id, rows[id].attempts, load(id), respond(id), now);
      }
      assert chosen[..|chosen|] == chosen;
    }
  }
}
