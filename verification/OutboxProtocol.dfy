/** One outbox row under any number of dispatchers (src/webhooks/webhook.service.ts).

    A delivery reads and writes only its own row, so the machine holds one row and
    the deliveries that have claimed it. Every `await` is a yield point, and an
    event that does not fit the state changes nothing. */
module OutboxProtocol {
  import opened Common
  import opened WebhookOutbox

  type HolderId = nat

  datatype Phase =
    | Loading
    | Ready
    | Waiting
    | Writing(w: Write, posted: bool)
    // the catch block after the write of `delivered` itself threw
    | Rewriting(w: Write)

  /** A delivery of the claimed row: its snapshot of `attempts`, and when it claimed. */
  datatype Holder = Holder(attempts: nat, since: Time, phase: Phase)

  datatype Fault = Clean | ErrorBefore | ErrorAfter

  datatype Input = Loaded(load: Load) | Post | Answered(response: Response) | Save(fault: Fault)

  datatype Event =
    | Tick(ms: nat)
    | Recover
    | Claim(hid: HolderId)
    | Step(hid: HolderId, input: Input)
    // the process dies, or an earlier row of the same batch threw
    | Die(hid: HolderId)

  datatype State = State(row: Row, holders: map<HolderId, Holder>, now: Time, posts: nat, recoveries: nat)

  function Created(now: Time): State {
    State(Enqueued(now), map[], now, 0, 0)
  }

  function SaveRow(s: State, w: Write, fault: Fault): Row {
    if fault.ErrorBefore? then s.row else Written(s.row, w, s.now)
  }

  function Put(s: State, hid: HolderId, h: Holder): State {
    s.(holders := s.holders[hid := h])
  }

  function Drop(s: State, hid: HolderId): State {
    s.(holders := s.holders - {hid})
  }

  function StepOf(max: nat, s: State, hid: HolderId, h: Holder, i: Input): State {
    match h.phase
    case Loading =>
      if !i.Loaded? then s
      else
        var w := AfterLoad(h.attempts, i.load);
        Put(s, hid, h.(phase := if w.Some? then Writing(w.value, false) else Ready))
    case Ready => if i.Post? then Put(s, hid, h.(phase := Waiting)).(posts := s.posts + 1) else s
    case Waiting => if i.Answered? then Put(s, hid, h.(phase := Writing(AfterPost(h.attempts, max, i.response), true))) else s
    case Writing(w, posted) =>
      if !i.Save? then s
      else
        var s' := s.(row := SaveRow(s, w, i.fault));
        if !i.fault.Clean? && w.SetStatus? && w.status == Delivered
        then Put(s', hid, h.(phase := Rewriting(RetryOrFail(h.attempts + 1, max, true, "database error"))))
        else Drop(s', hid)
    case Rewriting(w) => if i.Save? then Drop(s.(row := SaveRow(s, w, i.fault)), hid) else s
  }

  function Apply(max: nat, s: State, e: Event): State {
    match e
    case Tick(ms) => s.(now := s.now + ms)
    case Recover => if Stuck(s.row, s.now) then s.(row := Recovered(s.row, s.now), recoveries := s.recoveries + 1) else s
    case Claim(hid) =>
      if hid in s.holders || !Due(s.row, s.now) then s
      else Put(s.(row := Claimed(s.row, s.now)), hid, Holder(s.row.attempts, s.now, Loading))
    case Step(hid, i) => if hid in s.holders then StepOf(max, s, hid, s.holders[hid], i) else s
    case Die(hid) => Drop(s, hid)
  }

  function Exec(max: nat, s: State, es: seq<Event>): State {
    if |es| == 0 then s else Apply(max, Exec(max, s, es[..|es| - 1]), es[|es| - 1])
  }

  /** No delivery outlives its lease: each has written, or died, by the time its
      claim may be recovered. */
  predicate Prompt(s: State) {
    forall hid :: hid in s.holders ==> s.now - s.holders[hid].since <= LEASE_MS
  }

  ghost predicate PromptRun(max: nat, s: State, es: seq<Event>) {
    forall n :: 0 <= n <= |es| ==> Prompt(Exec(max, s, es[..n]))
  }
}
