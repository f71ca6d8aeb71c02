/** Incremental scanning keeps the stored transfers exact in every interleaving. */
module PayInScan {
  import opened Common
  import opened ChainScan
  import opened PayInLedger
  import opened PayInProtocol

  // ---- Facts about the chain -----------------------------------------------

  lemma {:induction false} MatchingFrom(logs: seq<Log>, w: Watch, t: Transfer)
    requires t in Matching(logs, w)
    ensures exists i :: 0 <= i < |logs| && Matches(w, logs[i]) && t == ToTransfer(logs[i])
  {
    var n := |logs| - 1;
    if t in Matching(logs[..n], w) {
      MatchingFrom(logs[..n], w, t);
      var i :| 0 <= i < n && Matches(w, logs[..n][i]) && t == ToTransfer(logs[..n][i]);
      assert logs[i] == logs[..n][i];
    } else {
      assert Matches(w, logs[n]);
    }
  }

  lemma {:induction false} MatchingInOrder(logs: seq<Log>, w: Watch)
    requires forall i, j :: 0 <= i < j < |logs| ==> logs[i].block <= logs[j].block
    ensures InOrder(Matching(logs, w))
  {
    if |logs| > 0 {
      var n := |logs| - 1;
      MatchingInOrder(logs[..n], w);
      forall t | t in Matching(logs[..n], w)
        ensures t.block <= logs[n].block
      {
        MatchingFrom(logs[..n], w, t);
      }
    }
  }

  /** On a chain, equal keys mean the same transfer, and no transfer repeats. */
  lemma {:induction false} MatchingKeys(logs: seq<Log>, head: nat, w: Watch)
    requires ChainOk(logs, head)
    ensures ChainScan.KeysDistinct(Matching(logs, w)) && NoDup(Matching(logs, w))
  {
    if |logs| > 0 {
      var n := |logs| - 1;
      MatchingKeys(logs[..n], head, w);
      forall t | t in Matching(logs[..n], w)
        ensures TransferKey(t) != TransferKey(ToTransfer(logs[n]))
      {
        MatchingFrom(logs[..n], w, t);
        var i :| 0 <= i < n && Matches(w, logs[..n][i]) && t == ToTransfer(logs[..n][i]);
        assert logs[i] == logs[..n][i];
      }
    }
  }

  /** New blocks do not change what older ranges hold. */
  lemma {:induction false} OldRangesAreStable(logs: seq<Log>, block: seq<Log>, w: Watch, a: nat, b: int)
    requires forall k :: 0 <= k < |block| ==> block[k].block > b
    ensures Between(Matching(logs + block, w), a, b) == Between(Matching(logs, w), a, b)
  {
    if |block| == 0 {
      assert logs + block == logs;
    } else {
      var n := |block| - 1;
      var all := logs + block;
      assert all[..|all| - 1] == logs + block[..n] && all[|all| - 1] == block[n];
      OldRangesAreStable(logs, block[..n], w, a, b);
      var m := Matching(logs + block[..n], w);
      if Matches(w, block[n]) {
        assert Matching(all, w)[..|m|] == m;
      }
    }
  }

  lemma MineKeepsChain(logs: seq<Log>, head: nat, block: seq<Log>)
    requires ChainOk(logs, head) && Appendable(logs, head, block)
    ensures ChainOk(logs + block, head + 1)
  {
  }

  // ---- Coverage ------------------------------------------------------------

  /** `ts` is exactly the pay-in's transfers in blocks [startBlock, h], each once. */
  ghost predicate Covers(logs: seq<Log>, head: nat, t: Terms, ts: seq<Transfer>, h: int) {
    && t.startBlock <= h + 1 && h <= head
    && NoDup(ts)
    && forall x :: x in ts <==> x in Between(Matching(logs, t.watch), t.startBlock, h)
  }

  /** ... for some h at or above the stored cursor. */
  ghost predicate Exact(logs: seq<Log>, head: nat, p: PayIn) {
    exists h :: Covers(logs, head, p.terms, p.transfers, h) && (p.lastScanned.Some? ==> p.lastScanned.value <= h)
  }

  lemma CoversLater(logs: seq<Log>, head: nat, block: seq<Log>, t: Terms, ts: seq<Transfer>, h: int)
    requires Covers(logs, head, t, ts, h) && Appendable(logs, head, block)
    ensures Covers(logs + block, head + 1, t, ts, h)
  {
    OldRangesAreStable(logs, block, t.watch, t.startBlock, h);
  }

  lemma ExactLater(logs: seq<Log>, head: nat, block: seq<Log>, p: PayIn)
    requires Exact(logs, head, p) && Appendable(logs, head, block)
    ensures Exact(logs + block, head + 1, p)
  {
    var h :| Covers(logs, head, p.terms, p.transfers, h) && (p.lastScanned.Some? ==> p.lastScanned.value <= h);
    CoversLater(logs, head, block, p.terms, p.transfers, h);
  }

  /** Merging a scan that starts no later than the gap closes it. */
  lemma MergeCovers(logs: seq<Log>, head: nat, t: Terms, ts: seq<Transfer>, h: int, from: nat, to: nat)
    requires ChainOk(logs, head) && Covers(logs, head, t, ts, h) && to <= head
    requires t.startBlock <= from && (from <= h + 1 || to <= h)
    ensures Covers(logs, head, t, Merged(ts + Between(Matching(logs, t.watch), from, to)), if to > h then to else h)
  {
    var m := Matching(logs, t.watch);
    var found := Between(m, from, to);
    var all := ts + found;
    BetweenElems(m, t.startBlock, h);
    BetweenElems(m, from, to);
    BetweenElems(m, t.startBlock, if to > h then to else h);
    assert forall x :: x in all <==> x in ts || x in found;
    MatchingKeys(logs, head, t.watch);
    forall i, j | 0 <= i < |all| && 0 <= j < |all| && TransferKey(all[i]) == TransferKey(all[j])
      ensures all[i] == all[j]
    {
      assert all[i] in all && all[j] in all;
      assert all[i] in m && all[j] in m;
    }
    MergedIsUnion(all);
  }

  // ---- Invariant -----------------------------------------------------------

  /** A snapshot some request still carries. */
  ghost predicate SnapOk(s: State, snap: PayIn) {
    snap.terms == s.row.terms && Exact(s.logs, s.head, snap)
  }

  /** The first block a snapshot has not been scanned for. */
  function Unread(snap: PayIn): nat {
    var start := snap.terms.startBlock;
    if snap.lastScanned.Some? && snap.lastScanned.value + 1 > start then snap.lastScanned.value + 1 else start
  }

  /** A scan from block `from` leaves no unread block out. */
  predicate Gapless(snap: PayIn, head: nat, from: nat) {
    from <= Unread(snap) || head < Unread(snap)
  }

  ghost predicate ScannedFrom(s: State, snap: PayIn, head: nat, next: nat, found: seq<Transfer>, from: nat) {
    && snap.terms.startBlock <= from && Gapless(snap, head, from)
    && head <= s.head && from <= next && (next <= head + 1 || next == from)
    && found == Between(Matching(s.logs, snap.terms.watch), from, if next <= head then next - 1 else head)
  }

  ghost predicate ScanOk(s: State, snap: PayIn, head: nat, next: nat, found: seq<Transfer>) {
    exists from :: ScannedFrom(s, snap, head, next, found, from)
  }

  /** The head a reconcile is given makes it scan without a gap. */
  predicate ScanFits(cfg: Config, snap: PayIn, head: nat) {
    Gapless(snap, head, ScanStart(cfg, snap, head))
  }

  predicate HeadFits(cfg: Config, s: State, e: Event) {
    e.Step? && e.tid in s.tasks && s.tasks[e.tid].RecHead? && e.input.Head? ==> ScanFits(cfg, s.tasks[e.tid].snap, e.input.head)
  }

  /** A positive startBlock never meets the look-back. */
  lemma PositiveStartFits(cfg: Config, snap: PayIn, head: nat)
    requires snap.terms.startBlock > 0
    ensures ScanFits(cfg, snap, head)
  {
  }

  lemma PositiveStartEventFits(cfg: Config, s: State, e: Event)
    requires Inv(s) && s.row.terms.startBlock > 0
    ensures HeadFits(cfg, s, e)
  {
    if e.Step? && e.tid in s.tasks && s.tasks[e.tid].RecHead? && e.input.Head? {
      assert TaskOk(s, s.tasks[e.tid]);
      PositiveStartFits(cfg, s.tasks[e.tid].snap, e.input.head);
    }
  }

  ghost predicate WriteOk(s: State, snap: PayIn, head: nat, ts: seq<Transfer>) {
    snap.terms == s.row.terms && exists h :: Covers(s.logs, s.head, s.row.terms, ts, h) && head <= h
  }

  ghost predicate TaskOk(s: State, t: Task) {
    && (t.RecHead? ==> SnapOk(s, t.snap))
    && (t.RecScan? ==> SnapOk(s, t.snap) && ScanOk(s, t.snap, t.head, t.next, t.found))
    && (t.RecWrite? ==> WriteOk(s, t.snap, t.head, t.transfers))
    && (t.SweepWrite? ==> t.d == NoPatch.(sweepStatus := t.d.sweepStatus, sweepHash := t.d.sweepHash, sweptAtomic := t.d.sweptAtomic,
                                          sweptAt := t.d.sweptAt, sweepFailure := t.d.sweepFailure)
                          && t.d.sweepStatus in {Some(SweepBroadcasted), Some(SweepConfirmed)}
                          && t.d.sweepHash.Some? && t.d.sweepHash.value.Some?)
  }

  ghost predicate Inv(s: State) {
    && ChainOk(s.logs, s.head)
    && Exact(s.logs, s.head, s.row)
    && s.row.receivedAtomic == Total(s.row.transfers)
    && forall t :: t in s.tasks ==> TaskOk(s, s.tasks[t])
  }

  // ---- Mining --------------------------------------------------------------

  lemma TaskOkLater(s: State, s': State, block: seq<Log>, t: Task)
    requires TaskOk(s, t) && Appendable(s.logs, s.head, block)
    requires s' == s.(logs := s.logs + block, head := s.head + 1)
    ensures TaskOk(s', t)
  {
    if t.RecHead? || t.RecScan? {
      ExactLater(s.logs, s.head, block, t.snap);
    }
    if t.RecScan? {
      var from :| ScannedFrom(s, t.snap, t.head, t.next, t.found, from);
      OldRangesAreStable(s.logs, block, t.snap.terms.watch, from, if t.next <= t.head then t.next - 1 else t.head);
      assert ScannedFrom(s', t.snap, t.head, t.next, t.found, from);
    }
    if t.RecWrite? {
      var h :| Covers(s.logs, s.head, s.row.terms, t.transfers, h) && t.head <= h;
      CoversLater(s.logs, s.head, block, s.row.terms, t.transfers, h);
    }
  }

  lemma MineKeepsInv(s: State, block: seq<Log>)
    requires Inv(s) && Appendable(s.logs, s.head, block)
    ensures Inv(s.(logs := s.logs + block, head := s.head + 1))
  {
    var s' := s.(logs := s.logs + block, head := s.head + 1);
    MineKeepsChain(s.logs, s.head, block);
    ExactLater(s.logs, s.head, block, s.row);
    forall t | t in s'.tasks
      ensures TaskOk(s', s'.tasks[t])
    {
      TaskOkLater(s, s', block, s.tasks[t]);
    }
  }

  // ---- Steps ---------------------------------------------------------------

  /** A step that leaves terms and chain alone keeps every other task's facts. */
  lemma OthersKeepOk(s: State, s': State, t: Task)
    requires TaskOk(s, t) && s'.row.terms == s.row.terms && s'.logs == s.logs && s'.head == s.head
    ensures TaskOk(s', t)
  {
    if t.RecScan? {
      var from :| ScannedFrom(s, t.snap, t.head, t.next, t.found, from);
      assert ScannedFrom(s', t.snap, t.head, t.next, t.found, from);
    }
  }

  lemma ScanStep(s: State, snap: PayIn, head: nat, next: nat, found: seq<Transfer>)
    requires ChainOk(s.logs, s.head) && ScanOk(s, snap, head, next, found) && next <= head
    ensures var to := if next + PAGE_BLOCKS - 1 < head then next + PAGE_BLOCKS - 1 else head;
            ScanOk(s, snap, head, to + 1, found + Between(Matching(s.logs, snap.terms.watch), next, to))
  {
    var m := Matching(s.logs, snap.terms.watch);
    var from :| ScannedFrom(s, snap, head, next, found, from);
    var to := if next + PAGE_BLOCKS - 1 < head then next + PAGE_BLOCKS - 1 else head;
    MatchingInOrder(s.logs, snap.terms.watch);
    BetweenSplit(m, from, next - 1, to);
    assert ScannedFrom(s, snap, head, to + 1, found + Between(m, next, to), from);
  }

  /** The merge of a finished scan covers everything up to its head. */
  lemma FinishedScanCovers(s: State, snap: PayIn, head: nat, next: nat, found: seq<Transfer>)
    requires ChainOk(s.logs, s.head) && SnapOk(s, snap) && ScanOk(s, snap, head, next, found) && next > head
    ensures WriteOk(s, snap, head, Merged(snap.transfers + found))
  {
    var h :| Covers(s.logs, s.head, snap.terms, snap.transfers, h) && (snap.lastScanned.Some? ==> snap.lastScanned.value <= h);
    var from :| ScannedFrom(s, snap, head, next, found, from);
    MergeCovers(s.logs, s.head, snap.terms, snap.transfers, h, from, head);
    assert Covers(s.logs, s.head, s.row.terms, Merged(snap.transfers + found), if head > h then head else h);
  }

  lemma ReconcileStepOk(cfg: Config, s: State, t: Task, i: Input)
    requires Inv(s) && TaskOk(s, t) && (t.RecRead? || t.RecHead? || t.RecScan? || t.RecWrite?)
    requires t.RecHead? && i.Head? ==> ScanFits(cfg, t.snap, i.head)
    ensures var f := ReconcileStep(cfg, s, t, i);
            && TaskOk(s, f.task) && f.row.terms == s.row.terms
            && Exact(s.logs, s.head, f.row) && f.row.receivedAtomic == Total(f.row.transfers)
  {
    if t.RecHead? && i.Head? && i.head <= s.head {
      var from := ScanStart(cfg, t.snap, i.head);
      NothingBetween(Matching(s.logs, t.snap.terms.watch), from, if from <= i.head then from - 1 else i.head);
      assert ScannedFrom(s, t.snap, i.head, from, [], from);
    } else if t.RecScan? && i.Go? {
      if t.next <= t.head {
        ScanStep(s, t.snap, t.head, t.next, t.found);
      } else {
        FinishedScanCovers(s, t.snap, t.head, t.next, t.found);
      }
    }
  }

  lemma OtherStepOk(cfg: Config, s: State, t: Task, i: Input)
    requires TaskOk(s, t) && !(t.RecRead? || t.RecHead? || t.RecScan? || t.RecWrite?)
    ensures var f := TaskStep(cfg, s, t, i);
            && TaskOk(s, f.task) && f.row.terms == s.row.terms
            && f.row.transfers == s.row.transfers && f.row.lastScanned == s.row.lastScanned
            && f.row.receivedAtomic == s.row.receivedAtomic
  {
  }

  lemma StepKeepsInv(cfg: Config, s: State, tid: TaskId, i: Input)
    requires Inv(s) && tid in s.tasks && HeadFits(cfg, s, Step(tid, i))
    ensures Inv(Apply(cfg, s, Step(tid, i)))
  {
    var s', t := Apply(cfg, s, Step(tid, i)), s.tasks[tid];
    if t.RecRead? || t.RecHead? || t.RecScan? || t.RecWrite? {
      ReconcileStepOk(cfg, s, t, i);
    } else {
      OtherStepOk(cfg, s, t, i);
    }
    forall u | u in s'.tasks
      ensures TaskOk(s', s'.tasks[u])
    {
      if u == tid {
        OthersKeepOk(s, s', s'.tasks[tid]);
      } else {
        OthersKeepOk(s, s', s.tasks[u]);
      }
    }
  }

  lemma EventKeepsInv(cfg: Config, s: State, e: Event)
    requires Inv(s) && HeadFits(cfg, s, e)
    ensures Inv(Apply(cfg, s, e)) && Apply(cfg, s, e).row.terms == s.row.terms
  {
    match e
    case Mine(block) =>
      if Appendable(s.logs, s.head, block) {
        MineKeepsInv(s, block);
      }
    case Start(tid, op) =>
      if tid !in s.tasks {
        var s' := Apply(cfg, s, e);
        forall u | u in s'.tasks
          ensures TaskOk(s', s'.tasks[u])
        {
          if u != tid {
            OthersKeepOk(s, s', s.tasks[u]);
          }
        }
      }
    case Step(tid, i) =>
      if tid in s.tasks {
        StepKeepsInv(cfg, s, tid, i);
        if s.tasks[tid].RecRead? || s.tasks[tid].RecHead? || s.tasks[tid].RecScan? || s.tasks[tid].RecWrite? {
          ReconcileStepOk(cfg, s, s.tasks[tid], i);
        } else {
          OtherStepOk(cfg, s, s.tasks[tid], i);
        }
      }
  }

  lemma InitialInv(s: State)
    requires Initial(s)
    ensures Inv(s)
  {
    NothingBetween(Matching(s.logs, s.row.terms.watch), s.row.terms.startBlock, s.row.terms.startBlock - 1);
    assert Covers(s.logs, s.head, s.row.terms, s.row.transfers, s.row.terms.startBlock - 1);
  }

  ghost predicate FittingRun(cfg: Config, s: State, es: seq<Event>) {
    |es| == 0 || (FittingRun(cfg, s, es[..|es| - 1]) && HeadFits(cfg, Exec(cfg, s, es[..|es| - 1]), es[|es| - 1]))
  }

  /** No scan starts above its first unread block: always so with a positive startBlock. */
  ghost predicate ReadsEverything(cfg: Config, s: State, es: seq<Event>) {
    s.row.terms.startBlock > 0 || FittingRun(cfg, s, es)
  }

  lemma LastEventFits(cfg: Config, s: State, es: seq<Event>)
    requires |es| > 0 && ReadsEverything(cfg, s, es) && Inv(Exec(cfg, s, es[..|es| - 1]))
    requires Exec(cfg, s, es[..|es| - 1]).row.terms == s.row.terms
    ensures ReadsEverything(cfg, s, es[..|es| - 1]) && HeadFits(cfg, Exec(cfg, s, es[..|es| - 1]), es[|es| - 1])
  {
    if s.row.terms.startBlock > 0 {
      PositiveStartEventFits(cfg, Exec(cfg, s, es[..|es| - 1]), es[|es| - 1]);
    }
  }

  /** In every interleaving of reconciles (stale snapshots, lost updates and lagging
      heads included), acceptances and sweeps, the stored transfers are exactly the
      matching logs of [startBlock, h], each once, for some h at or above the stored
      cursor, and the stored total is theirs. From block 0 on this takes scans that do
      not start above their first unread block. */
  lemma {:induction false} StoredTransfersAreExact(cfg: Config, s: State, es: seq<Event>)
    requires Initial(s) && ReadsEverything(cfg, s, es)
    ensures var s' := Exec(cfg, s, es);
            && Inv(s') && s'.row.terms == s.row.terms
            && Exact(s'.logs, s'.head, s'.row)
            && s'.row.receivedAtomic == Total(s'.row.transfers)
  {
    if |es| == 0 {
      InitialInv(s);
    } else {
      StoredTransfersAreExact(cfg, s, es[..|es| - 1]);
      LastEventFits(cfg, s, es);
      EventKeepsInv(cfg, Exec(cfg, s, es[..|es| - 1]), es[|es| - 1]);
    }
  }

  // ---- Block zero ----------------------------------------------------------

  /** A scan, first or later, reads every unread block on every chain if and only if it
      does not resume at block 0 with a head so far beyond the look-back that the
      finders skip unread blocks. */
  lemma ScanReadsEverythingIff(cfg: Config, snap: PayIn, head: nat)
    requires Unread(snap) <= head
    ensures (forall x: Transfer :: Unread(snap) <= x.block <= head ==> x in Between([x], ScanStart(cfg, snap, head), head))
            <==> ScanFits(cfg, snap, head)
    ensures ScanFits(cfg, snap, head) <==>
            || ScanFromBlock(snap.terms.startBlock, snap.lastScanned) > 0
            || head <= cfg.lookback + Unread(snap)
  {
    var from := ScanStart(cfg, snap, head);
    forall x: Transfer | x.block <= head
      ensures x in Between([x], from, head) <==> from <= x.block
    {
      BetweenElems([x], from, head);
    }
    var first := Transfer(0, None, 0, 0, 1, Unread(snap));
    assert first in Between([first], from, head) <==> from <= Unread(snap);
  }

  /** Fitting at the first scan is not enough at block 0: with a look-back of 1,000 a
      first scan at head 10 fits, the next one at head 5,000 skips blocks 11 to 3,999. */
  lemma LaterScanMayMissBlocks(snap: PayIn)
    requires snap.terms.startBlock == 0 && snap.lastScanned.None?
    ensures var cfg := Config(1, 1000);
            var later := snap.(lastScanned := Some(10));
            && ScanFits(cfg, snap, 10) && !ScanFits(cfg, later, 5000)
            && Unread(later) == 11 && ScanStart(cfg, later, 5000) == 4000
  {
  }
}
