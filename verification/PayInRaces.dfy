/** Why "confirmed is absorbing" needs serialised operations: a reconcile that read
    the pay-in before an acceptance undoes it (src/payins/payins.service.ts). */
module PayInRaces {
  import opened Common
  import opened Keccak
  import opened ChainScan
  import opened PayInLedger
  import opened PayInProtocol

  const CFG: Config := Config(1, 100)
  const WATCH: Watch := Deposit(7, 9)
  const SHORT: Log := Log(1, 0, 1, Erc20Transfer(7, 5, 9, 4))
  const PAID: Transfer := Transfer(1, Some(0), 5, 9, 4, 1)

  /** Ten expected, four received. */
  const TERMS: Terms := Terms(Some("client"), "invoice", DerivedAddress, WATCH, 0, 10, 1, None)
  const ROW: PayIn := PayIn(TERMS, Pending, 0, [], None, None, None, None, SweepPending, None, 0, None, None)
  const BOOT: State := State(ROW, [SHORT], 1, map[], [], false)

  lemma BootIsInitial()
    ensures Initial(BOOT)
  {
    assert BOOT.logs[0] == SHORT;
  }

  lemma Extend(es: seq<Event>, e: Event)
    ensures Exec(CFG, BOOT, es + [e]) == Apply(CFG, Exec(CFG, BOOT, es), e)
  {
    assert (es + [e])[..|es|] == es;
  }

  lemma FoundTransfer()
    ensures Between(Matching([SHORT], WATCH), 1, 1) == [PAID]
  {
    assert [SHORT][..0] == [] && Matching([SHORT], WATCH) == [] + [PAID];
    assert [PAID][..0] == [] && Between([PAID], 1, 1) == [] + [PAID];
  }

  lemma MergedTransfer(stored: seq<Transfer>)
    requires stored == [] || stored == [PAID]
    ensures Merged(stored + [PAID]) == [PAID]
  {
    assert [PAID][1..] == [] && Merged([PAID]) == [PAID] + [];
    if stored == [PAID] {
      var two := stored + [PAID];
      assert two[1..] == [PAID] && TransferKey(two[1]) == TransferKey(two[0]);
    } else {
      assert stored + [PAID] == [PAID];
    }
  }

  lemma FourReceived()
    ensures Total([PAID]) == 4
  {
    var amounts := Amounts([PAID]);
    assert amounts[..0] == [] && Sum(amounts) == Sum(amounts[..0]) + amounts[0];
  }

  /** A task step that writes nothing. */
  lemma Advanced(es: seq<Event>, tid: TaskId, i: Input, t: Task, t': Task)
    requires var s := Exec(CFG, BOOT, es); tid in s.tasks && s.tasks[tid] == t && TaskStep(CFG, s, t, i) == Stay(s, t')
    ensures var s := Exec(CFG, BOOT, es); Exec(CFG, BOOT, es + [Step(tid, i)]) == s.(tasks := s.tasks[tid := t'])
  {
    Extend(es, Step(tid, i));
    assert Exec(CFG, BOOT, es).outbox + [] == Exec(CFG, BOOT, es).outbox;
  }

  /** A reconcile about to read its first page. */
  lemma ToScan(es: seq<Event>, tid: TaskId) returns (longer: seq<Event>)
    requires var s := Exec(CFG, BOOT, es);
             && s.head == 1 && tid !in s.tasks && s.row.terms == TERMS && s.row.status != Confirmed
             && (s.row.lastScanned == None || s.row.lastScanned == Some(1))
    ensures var s := Exec(CFG, BOOT, es);
            Exec(CFG, BOOT, longer) == s.(tasks := s.tasks[tid := RecScan(s.row, 1, 1, [])])
  {
    var s := Exec(CFG, BOOT, es);
    Extend(es, Start(tid, Reconcile));
    longer := es + [Start(tid, Reconcile)];
    Advanced(longer, tid, Throw, RecRead, RecHead(s.row));
    longer := longer + [Step(tid, Throw)];
    assert ScanStart(CFG, s.row, 1) == 1;
    Advanced(longer, tid, Head(1), RecHead(s.row), RecScan(s.row, 1, 1, []));
    longer := longer + [Step(tid, Head(1))];
  }

  /** The one page of the scan. */
  lemma PageRead(es: seq<Event>, tid: TaskId, snap: PayIn) returns (longer: seq<Event>)
    requires var s := Exec(CFG, BOOT, es);
             s.logs == [SHORT] && tid in s.tasks && s.tasks[tid] == RecScan(snap, 1, 1, []) && snap.terms == TERMS
    ensures var s := Exec(CFG, BOOT, es); Exec(CFG, BOOT, longer) == s.(tasks := s.tasks[tid := RecScan(snap, 1, 2, [PAID])])
  {
    FoundTransfer();
    assert [] + [PAID] == [PAID];
    Advanced(es, tid, Go(Clean, 0), RecScan(snap, 1, 1, []), RecScan(snap, 1, 2, [PAID]));
    longer := es + [Step(tid, Go(Clean, 0))];
  }

  /** A reconcile brought up to its write. */
  lemma ToWrite(es: seq<Event>, tid: TaskId) returns (longer: seq<Event>)
    requires var s := Exec(CFG, BOOT, es);
             && s.logs == [SHORT] && s.head == 1 && tid !in s.tasks && s.row.terms == TERMS && s.row.status != Confirmed
             && (s.row.transfers == [] || s.row.transfers == [PAID]) && (s.row.lastScanned == None || s.row.lastScanned == Some(1))
    ensures var s := Exec(CFG, BOOT, es);
            Exec(CFG, BOOT, longer) == s.(tasks := s.tasks[tid := RecWrite(s.row, 1, [PAID], 0)])
  {
    var s := Exec(CFG, BOOT, es);
    var done := RecScan(s.row, 1, 2, [PAID]);
    longer := ToScan(es, tid);
    longer := PageRead(longer, tid, s.row);
    MergedTransfer(s.row.transfers);
    Advanced(longer, tid, Go(Clean, 0), done, RecWrite(s.row, 1, [PAID], 0));
    longer := longer + [Step(tid, Go(Clean, 0))];
  }

  const SEEN: PayIn := ROW.(status := Underpaid, receivedAtomic := 4, transfers := [PAID], lastScanned := Some(1), detectedAt := Some(0))

  /** One reconcile has stored the short payment; a second has read that and not
      written yet. */
  lemma RunToStaleWrite() returns (es: seq<Event>)
    ensures var s := Exec(CFG, BOOT, es);
            s.row == SEEN && s.tasks.Keys == {0, 1} && s.tasks[1] == RecWrite(SEEN, 1, [PAID], 0)
  {
    assert Exec(CFG, BOOT, []) == BOOT;
    var first := ToWrite([], 0);
    var go := Step(0, Go(Clean, 0));
    Extend(first, go);
    FourReceived();
    assert Exec(CFG, BOOT, first + [go]).row == SEEN;
    es := ToWrite(first + [go], 1);
  }

  const ACCEPTED: PayIn := SEEN.(status := Confirmed, acceptedAt := Some(3), confirmedAt := Some(3))

  lemma RunToAccepted() returns (es: seq<Event>)
    ensures var s := Exec(CFG, BOOT, es); s.row == ACCEPTED && 1 in s.tasks && s.tasks[1] == RecWrite(SEEN, 1, [PAID], 0)
  {
    var run := RunToStaleWrite();
    var (start, read, accept) := (Start(2, Accept), Step(2, Throw), Step(2, Go(Clean, 3)));
    Extend(run, start);
    Extend(run + [start], read);
    Extend(run + [start] + [read], accept);
    es := run + [start] + [read] + [accept];
  }

  /** The acceptance succeeds, and the older reconcile then takes the pay-in from
      confirmed back to underpaid. */
  lemma StaleReconcileUndoesAcceptance() returns (es: seq<Event>, more: seq<Event>)
    ensures Initial(BOOT)
    ensures var p := Exec(CFG, BOOT, es).row; p.status == Confirmed && p.acceptedAt.Some?
    ensures var p := Exec(CFG, BOOT, es + more).row; p.status == Underpaid && p.acceptedAt.Some? && p.confirmedAt.None?
  {
    BootIsInitial();
    es := RunToAccepted();
    var late := Step(1, Go(Clean, 4));
    more := [late];
    Extend(es, late);
    FourReceived();
  }
}
