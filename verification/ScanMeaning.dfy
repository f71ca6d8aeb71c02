/** What the stored transfers of a pay-in are, in terms of the chain's logs alone. */
module ScanMeaning {
  import opened Common
  import opened Keccak
  import opened ChainScan
  import opened PayInLedger
  import opened PayInProtocol
  import opened PayInScan
  import opened PayInSerial
  import PayInFullScan

  // ---- The logs that count -------------------------------------------------

  /** A transfer of this token to this address, in blocks [a, b]. */
  predicate Deposits(l: Log, token: Address, to: Address, a: nat, b: int) {
    l.body.Erc20Transfer? && l.body.token == token && l.body.to == to && a <= l.block <= b
  }

  /** A payment of this invoice in this token to this router, in blocks [a, b]. */
  predicate Pays(l: Log, router: Address, id: Word, token: Address, a: nat, b: int) {
    l.body.InvoicePaid? && l.body.router == router && l.body.invoiceId == id && l.body.token == token && a <= l.block <= b
  }

  /** The transfer a log of a token stands for, and the one of a payment. */
  function DepositOf(l: Log): Transfer
    requires l.body.Erc20Transfer?
  {
    Transfer(l.hash, Some(l.logIndex), l.body.from, l.body.to, l.body.value, l.block)
  }

  function PaymentOf(l: Log): Transfer
    requires l.body.InvoicePaid?
  {
    Transfer(l.hash, Some(l.logIndex), l.body.payer, l.body.treasury, l.body.amount, l.block)
  }

  function Deposited(logs: seq<Log>, token: Address, to: Address, a: nat, b: int): nat {
    if |logs| == 0 then 0
    else
      var l := logs[|logs| - 1];
      Deposited(logs[..|logs| - 1], token, to, a, b) + if Deposits(l, token, to, a, b) then l.body.value else 0
  }

  function DepositCount(logs: seq<Log>, token: Address, to: Address, a: nat, b: int): nat {
    if |logs| == 0 then 0
    else DepositCount(logs[..|logs| - 1], token, to, a, b) + if Deposits(logs[|logs| - 1], token, to, a, b) then 1 else 0
  }

  function Paid(logs: seq<Log>, router: Address, id: Word, token: Address, a: nat, b: int): nat {
    if |logs| == 0 then 0
    else
      var l := logs[|logs| - 1];
      Paid(logs[..|logs| - 1], router, id, token, a, b) + if Pays(l, router, id, token, a, b) then l.body.amount else 0
  }

  function PaymentCount(logs: seq<Log>, router: Address, id: Word, token: Address, a: nat, b: int): nat {
    if |logs| == 0 then 0
    else PaymentCount(logs[..|logs| - 1], router, id, token, a, b) + if Pays(logs[|logs| - 1], router, id, token, a, b) then 1 else 0
  }

  // ---- A scan in terms of logs ---------------------------------------------

  lemma TotalAppend(ts: seq<Transfer>, t: Transfer)
    ensures Total(ts + [t]) == Total(ts) + t.amountAtomic
  {
    var amounts := Amounts(ts + [t]);
    assert amounts[..|ts|] == Amounts(ts);
  }

  lemma {:induction false} MatchingHas(logs: seq<Log>, w: Watch, i: nat)
    requires i < |logs| && Matches(w, logs[i])
    ensures ToTransfer(logs[i]) in Matching(logs, w)
  {
    var n := |logs| - 1;
    if i < n {
      MatchingHas(logs[..n], w, i);
    }
  }

  lemma FoundAppend(logs: seq<Log>, w: Watch, a: nat, b: int)
    requires |logs| > 0
    ensures var (rest, l) := (Between(Matching(logs[..|logs| - 1], w), a, b), logs[|logs| - 1]);
            Between(Matching(logs, w), a, b) == if Matches(w, l) && a <= l.block <= b then rest + [ToTransfer(l)] else rest
  {
    var (m, l) := (Matching(logs[..|logs| - 1], w), logs[|logs| - 1]);
    if Matches(w, l) {
      assert (m + [ToTransfer(l)])[..|m|] == m;
    }
  }

  lemma {:induction false} DepositsSum(logs: seq<Log>, token: Address, to: Address, a: nat, b: int)
    ensures var found := Between(Matching(logs, Deposit(token, to)), a, b);
            Total(found) == Deposited(logs, token, to, a, b) && |found| == DepositCount(logs, token, to, a, b)
  {
    if |logs| == 0 {
      assert Amounts([]) == [];
    } else {
      var n := |logs| - 1;
      DepositsSum(logs[..n], token, to, a, b);
      FoundAppend(logs, Deposit(token, to), a, b);
      TotalAppend(Between(Matching(logs[..n], Deposit(token, to)), a, b), ToTransfer(logs[n]));
    }
  }

  lemma DepositsFound(logs: seq<Log>, token: Address, to: Address, a: nat, b: int)
    ensures var found := Between(Matching(logs, Deposit(token, to)), a, b);
            && (forall i :: 0 <= i < |logs| && Deposits(logs[i], token, to, a, b) ==> DepositOf(logs[i]) in found)
            && (forall x :: x in found ==> exists i :: 0 <= i < |logs| && Deposits(logs[i], token, to, a, b) && x == DepositOf(logs[i]))
  {
    var w := Deposit(token, to);
    BetweenElems(Matching(logs, w), a, b);
    forall i | 0 <= i < |logs| && Deposits(logs[i], token, to, a, b)
      ensures DepositOf(logs[i]) in Between(Matching(logs, w), a, b)
    {
      MatchingHas(logs, w, i);
    }
    forall x | x in Between(Matching(logs, w), a, b)
      ensures exists i :: 0 <= i < |logs| && Deposits(logs[i], token, to, a, b) && x == DepositOf(logs[i])
    {
      MatchingFrom(logs, w, x);
      var i :| 0 <= i < |logs| && Matches(w, logs[i]) && x == ToTransfer(logs[i]);
      assert Deposits(logs[i], token, to, a, b);
    }
  }

  lemma {:induction false} PaymentsSum(logs: seq<Log>, router: Address, id: Word, token: Address, a: nat, b: int)
    ensures var found := Between(Matching(logs, Invoice(router, id, token)), a, b);
            Total(found) == Paid(logs, router, id, token, a, b) && |found| == PaymentCount(logs, router, id, token, a, b)
  {
    if |logs| == 0 {
      assert Amounts([]) == [];
    } else {
      var n := |logs| - 1;
      PaymentsSum(logs[..n], router, id, token, a, b);
      FoundAppend(logs, Invoice(router, id, token), a, b);
      TotalAppend(Between(Matching(logs[..n], Invoice(router, id, token)), a, b), ToTransfer(logs[n]));
    }
  }

  lemma PaymentsFound(logs: seq<Log>, router: Address, id: Word, token: Address, a: nat, b: int)
    ensures var found := Between(Matching(logs, Invoice(router, id, token)), a, b);
            && (forall i :: 0 <= i < |logs| && Pays(logs[i], router, id, token, a, b) ==> PaymentOf(logs[i]) in found)
            && (forall x :: x in found ==> exists i :: 0 <= i < |logs| && Pays(logs[i], router, id, token, a, b) && x == PaymentOf(logs[i]))
  {
    var w := Invoice(router, id, token);
    BetweenElems(Matching(logs, w), a, b);
    forall i | 0 <= i < |logs| && Pays(logs[i], router, id, token, a, b)
      ensures PaymentOf(logs[i]) in Between(Matching(logs, w), a, b)
    {
      MatchingHas(logs, w, i);
    }
    forall x | x in Between(Matching(logs, w), a, b)
      ensures exists i :: 0 <= i < |logs| && Pays(logs[i], router, id, token, a, b) && x == PaymentOf(logs[i])
    {
      MatchingFrom(logs, w, x);
      var i :| 0 <= i < |logs| && Matches(w, logs[i]) && x == ToTransfer(logs[i]);
      assert Pays(logs[i], router, id, token, a, b);
    }
  }

  /** What covers a range is a permutation of one scan of it. */
  lemma CoveredIsScan(s: State, h: int)
    requires Inv(s) && Covers(s.logs, s.head, s.row.terms, s.row.transfers, h)
    ensures var scan := Between(Matching(s.logs, s.row.terms.watch), s.row.terms.startBlock, h);
            && multiset(s.row.transfers) == multiset(scan) && Total(s.row.transfers) == Total(scan) && |s.row.transfers| == |scan|
            && forall x :: x in s.row.transfers <==> x in scan
  {
    var (ts, scan) := (s.row.transfers, Between(Matching(s.logs, s.row.terms.watch), s.row.terms.startBlock, h));
    MatchingKeys(s.logs, s.head, s.row.terms.watch);
    PayInFullScan.BetweenNoDup(Matching(s.logs, s.row.terms.watch), s.row.terms.startBlock, h);
    assert Elems(ts) == Elems(scan);
    NoDupSameElems(ts, scan);
    TotalOfPermutation(ts, scan);
    assert |multiset(ts)| == |multiset(scan)|;
  }

  /** In every interleaving the transfers stored for a derived-address pay-in are, one for
      one, the logs of blocks [startBlock, h] that transfer its token to its address, each
      with the log's own sender, value, block, hash and index, for some h at or above the
      cursor; and the stored total is the sum of their values. */
  lemma DepositPayInHoldsItsLogs(cfg: Config, s: State, es: seq<Event>) returns (h: int)
    requires Initial(s) && ReadsEverything(cfg, s, es) && s.row.terms.watch.Deposit?
    ensures var (s', p) := (Exec(cfg, s, es), Exec(cfg, s, es).row);
            var (token, to, a) := (s.row.terms.watch.token, s.row.terms.watch.to, s.row.terms.startBlock);
            && h <= s'.head && (p.lastScanned.Some? ==> p.lastScanned.value <= h)
            && NoDup(p.transfers) && |p.transfers| == DepositCount(s'.logs, token, to, a, h)
            && p.receivedAtomic == Deposited(s'.logs, token, to, a, h)
            && (forall i :: 0 <= i < |s'.logs| && Deposits(s'.logs[i], token, to, a, h) ==> DepositOf(s'.logs[i]) in p.transfers)
            && (forall x :: x in p.transfers ==> exists i :: 0 <= i < |s'.logs| && Deposits(s'.logs[i], token, to, a, h) && x == DepositOf(s'.logs[i]))
  {
    StoredTransfersAreExact(cfg, s, es);
    var (s', p) := (Exec(cfg, s, es), Exec(cfg, s, es).row);
    h :| Covers(s'.logs, s'.head, p.terms, p.transfers, h) && (p.lastScanned.Some? ==> p.lastScanned.value <= h);
    CoveredIsScan(s', h);
    DepositsSum(s'.logs, p.terms.watch.token, p.terms.watch.to, p.terms.startBlock, h);
    DepositsFound(s'.logs, p.terms.watch.token, p.terms.watch.to, p.terms.startBlock, h);
  }

  /** The same for a router pay-in and the payments of its invoice. */
  lemma RouterPayInHoldsItsLogs(cfg: Config, s: State, es: seq<Event>) returns (h: int)
    requires Initial(s) && ReadsEverything(cfg, s, es) && s.row.terms.watch.Invoice?
    ensures var (s', p) := (Exec(cfg, s, es), Exec(cfg, s, es).row);
            var (w, a) := (s.row.terms.watch, s.row.terms.startBlock);
            && h <= s'.head && (p.lastScanned.Some? ==> p.lastScanned.value <= h)
            && NoDup(p.transfers) && |p.transfers| == PaymentCount(s'.logs, w.router, w.invoiceId, w.token, a, h)
            && p.receivedAtomic == Paid(s'.logs, w.router, w.invoiceId, w.token, a, h)
            && (forall i :: 0 <= i < |s'.logs| && Pays(s'.logs[i], w.router, w.invoiceId, w.token, a, h) ==> PaymentOf(s'.logs[i]) in p.transfers)
            && (forall x :: x in p.transfers ==> exists i :: 0 <= i < |s'.logs| && Pays(s'.logs[i], w.router, w.invoiceId, w.token, a, h) && x == PaymentOf(s'.logs[i]))
  {
    StoredTransfersAreExact(cfg, s, es);
    var (s', p) := (Exec(cfg, s, es), Exec(cfg, s, es).row);
    h :| Covers(s'.logs, s'.head, p.terms, p.transfers, h) && (p.lastScanned.Some? ==> p.lastScanned.value <= h);
    CoveredIsScan(s', h);
    PaymentsSum(s'.logs, p.terms.watch.router, p.terms.watch.invoiceId, p.terms.watch.token, p.terms.startBlock, h);
    PaymentsFound(s'.logs, p.terms.watch.router, p.terms.watch.invoiceId, p.terms.watch.token, p.terms.startBlock, h);
  }

  // ---- A reconcile in terms of logs ----------------------------------------

  /** The status that amounts, depth and expiry call for. */
  ghost predicate StatusFits(status: Status, paid: nat, expected: nat, deep: bool, expired: bool) {
    && (status == Pending <==> paid == 0 && !expired)
    && (status == Expired <==> paid == 0 && expired)
    && (status == Underpaid <==> 0 < paid < expected)
    && (status == Overpaid <==> expected < paid)
    && (status == Confirmed <==> paid == expected && deep)
    && (status == Detected <==> paid == expected && !deep)
  }

  lemma DeepIffLogsAreDeep(cfg: Config, logs: seq<Log>, token: Address, to: Address, a: nat, head: nat)
    ensures AllDeep(cfg, Between(Matching(logs, Deposit(token, to)), a, head), head) <==>
            forall i :: 0 <= i < |logs| && Deposits(logs[i], token, to, a, head) ==>
              logs[i].block + (if cfg.minConfirmations > 1 then cfg.minConfirmations else 1) <= head
  {
    DepositsFound(logs, token, to, a, head);
  }

  /** With serialised requests and heads that do not go back, a reconcile of a
      derived-address pay-in stores what the chain's logs up to its head say: the sum of
      the deposits, and the one status that sum, their depth and the expiry call for. */
  lemma ReconcileSaysWhatTheLogsSay(cfg: Config, s: State, es: seq<Event>, tid: TaskId, now: Time)
    requires Initial(s) && ReadsEverything(cfg, s, es) && PayInFullScan.Orderly(cfg, s, es) && s.row.terms.watch.Deposit?
    requires tid in Exec(cfg, s, es).tasks && Exec(cfg, s, es).tasks[tid].RecWrite?
    ensures var (s1, t) := (Exec(cfg, s, es), Exec(cfg, s, es).tasks[tid]);
            var (token, to, a) := (s.row.terms.watch.token, s.row.terms.watch.to, s.row.terms.startBlock);
            var row := Apply(cfg, s1, Step(tid, Go(Clean, now))).row;
            var deep := forall i :: 0 <= i < |s1.logs| && Deposits(s1.logs[i], token, to, a, t.head) ==>
                          s1.logs[i].block + (if cfg.minConfirmations > 1 then cfg.minConfirmations else 1) <= t.head;
            && row.receivedAtomic == Deposited(s1.logs, token, to, a, t.head) && row.lastScanned == Some(t.head)
            && StatusFits(row.status, Deposited(s1.logs, token, to, a, t.head), s.row.terms.expectedAtomic, deep,
                          s.row.terms.expiresAt.Some? && s.row.terms.expiresAt.value < t.now)
  {
    PayInFullScan.ReconcileAgreesWithFullScan(cfg, s, es, tid, now);
    var (s1, t) := (Exec(cfg, s, es), Exec(cfg, s, es).tasks[tid]);
    var (token, to, a) := (s.row.terms.watch.token, s.row.terms.watch.to, s.row.terms.startBlock);
    DepositsSum(s1.logs, token, to, a, t.head);
    DeepIffLogsAreDeep(cfg, s1.logs, token, to, a, t.head);
    StatusSaysWhatWasPaid(cfg, s.row.terms, Between(Matching(s1.logs, s.row.terms.watch), a, t.head), t.head, t.now);
  }
}
