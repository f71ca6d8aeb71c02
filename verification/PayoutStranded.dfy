/** Two runs that leave a payout authorized with nobody to finish it. */
module PayoutStranded {
  import opened Common
  import opened PayoutLedger
  import opened PayoutProtocol
  import opened PayoutTheorems
  import opened PayoutOwnership

  /** An audit failure right after the claim: the request ends outside its try block. */
  lemma AuditFailureStrandsTheClaim() returns (es: seq<Event>)
    ensures Stranded(Reached(DIRECT, es), 7) && Count(Reached(DIRECT, es).subs, 7) == 0
  {
    var run := RunToClaim();
    var (claim, boom) := (Step(1, Go(Clean, 0)), Step(1, Throw));
    Extend(run, claim);
    assert Matches(map[7 := NewPayout(BILL)], 7, ONLY_PREPARED) && [] + [Leg(7, CLAIMED)] == LEGS;
    assert ClaimStep(map[7 := NewPayout(BILL)], Auth(JOB, [], Claiming), claim.input) == Effect(map[7 := CLAIMED], Auth(JOB, LEGS, Auditing), []);
    assert Reached(DIRECT, run + [claim]) == State(map[7 := CLAIMED], map[0 := Done, 1 := Auth(JOB, LEGS, Auditing)], []);
    Extend(run + [claim], boom);
    es := run + [claim] + [boom];
    assert Reached(DIRECT, es) == State(map[7 := CLAIMED], map[0 := Done, 1 := Done], []);
  }

  const VAULT: Config := Config(true, false, map[])
  const BILL2: Fixed := Fixed(None, "q", 0, 6, 9)
  const BOTH: map<Id, Payout> := map[7 := NewPayout(BILL), 8 := NewPayout(BILL2)]
  const IDS: seq<Id> := [7, 8]
  const BATCH: Job := Job(Batch, None, IDS, IDS, 0, 11, 0)

  lemma Onward(es: seq<Event>, e: Event)
    ensures Reached(VAULT, es + [e]) == Apply(VAULT, Reached(VAULT, es), e)
  {
    assert (es + [e])[..|es|] == es;
  }

  lemma RunToTwoPayouts() returns (es: seq<Event>)
    ensures Reached(VAULT, es) == State(BOTH, map[0 := Done, 1 := Done], [])
  {
    var (c0, n0, c1, n1) := (StartCreate(0, BILL, false), Step(0, NewId(7, Clean)), StartCreate(1, BILL2, false), Step(1, NewId(8, Clean)));
    Onward([], c0);
    Onward([] + [c0], n0);
    assert Reached(VAULT, [] + [c0] + [n0]) == State(map[7 := NewPayout(BILL)], map[0 := Done], []);
    Onward([] + [c0] + [n0], c1);
    Onward([] + [c0] + [n0] + [c1], n1);
    es := [] + [c0] + [n0] + [c1] + [n1];
  }

  lemma TwoIds()
    ensures Dedup(IDS) == IDS && Sum(AmountsOf(BOTH, IDS)) == 11
  {
    assert IDS[..1] == [7] && IDS[..1][..0] == [] && Dedup(IDS[..1]) == [7];
    var amounts := AmountsOf(BOTH, IDS);
    assert amounts == [5, 6] && amounts[..1] == [5] && amounts[..1][..0] == [];
    assert Sum(amounts[..1]) == 5;
  }

  lemma RunToBatchRead() returns (es: seq<Event>)
    ensures Reached(VAULT, es) == State(BOTH, map[0 := Done, 1 := Done, 2 := BatchRead(IDS, IDS, None, map[])], [])
  {
    var run := RunToTwoPayouts();
    TwoIds();
    Onward(run, StartBatch(2, IDS, None));
    es := run + [StartBatch(2, IDS, None)];
  }

  lemma RunToFirstRead() returns (es: seq<Event>)
    ensures Reached(VAULT, es)
            == State(BOTH, map[0 := Done, 1 := Done, 2 := BatchRead(IDS, IDS, None, map[7 := NewPayout(BILL)])], [])
  {
    var run := RunToBatchRead();
    var r7 := Step(2, ReadLeg(7));
    assert IDS[0] == 7 && IDS[1] == 8;
    assert ReadStep(BOTH, BatchRead(IDS, IDS, None, map[]), r7.input) == Effect(BOTH, BatchRead(IDS, IDS, None, map[7 := NewPayout(BILL)]), []);
    Onward(run, r7);
    es := run + [r7];
  }

  lemma RunToBatchClaim() returns (es: seq<Event>)
    ensures Reached(VAULT, es) == State(BOTH, map[0 := Done, 1 := Done, 2 := Auth(BATCH, [], Claiming)], [])
  {
    var run := RunToFirstRead();
    TwoIds();
    var (r8, enough) := (Step(2, ReadLeg(8)), Step(2, Amount(11, 0)));
    var got: map<Id, Payout> := map[7 := NewPayout(BILL)];
    assert got[8 := BOTH[8]] == BOTH && IDS[1] == 8;
    assert BatchChecked(IDS, IDS, None, BOTH) == BatchBalance(BATCH);
    assert ReadStep(BOTH, BatchRead(IDS, IDS, None, got), r8.input) == Effect(BOTH, BatchBalance(BATCH), []);
    Onward(run, r8);
    assert Reached(VAULT, run + [r8]) == State(BOTH, map[0 := Done, 1 := Done, 2 := BatchBalance(BATCH)], []);
    Onward(run + [r8], enough);
    es := run + [r8] + [enough];
  }

  const ONE_CLAIMED: map<Id, Payout> := BOTH[7 := CLAIMED]

  lemma RunToOneClaimed() returns (es: seq<Event>)
    ensures Reached(VAULT, es) == State(ONE_CLAIMED, map[0 := Done, 1 := Done, 2 := Auth(BATCH, LEGS, Claiming)], [])
  {
    var run := RunToBatchClaim();
    var claim := Step(2, Go(Clean, 0));
    Onward(run, claim);
    assert BATCH.ids[0] == 7 && Matches(BOTH, 7, ONLY_PREPARED) && [] + [Leg(7, CLAIMED)] == LEGS;
    assert ClaimStep(BOTH, Auth(BATCH, [], Claiming), claim.input) == Effect(ONE_CLAIMED, Auth(BATCH, LEGS, Claiming), []);
    es := run + [claim];
  }

  /** A database error at the second claim of a batch: the first leg stays behind. */
  lemma ClaimFailureStrandsEarlierLegs() returns (es: seq<Event>)
    ensures Stranded(Reached(VAULT, es), 7) && Count(Reached(VAULT, es).subs, 7) == 0
    ensures 8 in Reached(VAULT, es).rows && Reached(VAULT, es).rows[8].status == Prepared
  {
    var run := RunToOneClaimed();
    var boom := Step(2, Go(ErrorBefore, 0));
    Onward(run, boom);
    es := run + [boom];
    assert Reached(VAULT, es) == State(ONE_CLAIMED, map[0 := Done, 1 := Done, 2 := Done], []);
  }
}
