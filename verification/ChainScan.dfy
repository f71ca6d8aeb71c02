/** Reading a pay-in's transfers off the chain: log pages, the resume point and
    the dedupe (src/blockchain/blockchain.service.ts, src/payins/payins.service.ts). */
module ChainScan {
  import opened Common
  import opened Keccak

  const RESCAN_OVERLAP_BLOCKS: nat := 30
  const PAGE_BLOCKS: nat := 2000

  datatype Body =
    | Erc20Transfer(token: Address, from: Address, to: Address, value: nat)
    | InvoicePaid(router: Address, invoiceId: Word, payer: Address, token: Address, amount: nat, treasury: Address)

  /** A mined log. The network gives every log of a transaction its own index. */
  datatype Log = Log(hash: nat, logIndex: nat, block: nat, body: Body)

  /** A stored transfer; records from before log indexes were kept have none. */
  datatype Transfer = Transfer(hash: nat, logIndex: Option<nat>, from: Address, to: Address, amountAtomic: nat, block: nat)

  /** What a pay-in listens for. */
  datatype Watch =
    | Deposit(token: Address, to: Address)
    | Invoice(router: Address, invoiceId: Word, token: Address)

  predicate Matches(w: Watch, l: Log) {
    match w
    case Deposit(token, to) => l.body.Erc20Transfer? && l.body.token == token && l.body.to == to
    case Invoice(router, id, token) =>
      l.body.InvoicePaid? && l.body.router == router && l.body.invoiceId == id && l.body.token == token
  }

  function ToTransfer(l: Log): Transfer {
    match l.body
    case Erc20Transfer(_, from, to, value) => Transfer(l.hash, Some(l.logIndex), from, to, value, l.block)
    case InvoicePaid(_, _, payer, _, amount, treasury) => Transfer(l.hash, Some(l.logIndex), payer, treasury, amount, l.block)
  }

  /** Every transfer the chain holds for a pay-in, in chain order. */
  function Matching(logs: seq<Log>, w: Watch): seq<Transfer> {
    if |logs| == 0 then []
    else
      var (rest, l) := (Matching(logs[..|logs| - 1], w), logs[|logs| - 1]);
      if Matches(w, l) then rest + [ToTransfer(l)] else rest
  }

  // ---- Block ranges --------------------------------------------------------

  predicate InOrder(ts: seq<Transfer>) {
    forall i, j :: 0 <= i < j < |ts| ==> ts[i].block <= ts[j].block
  }

  /** What one getLogs call over blocks [a, b] returns. */
  function Between(ts: seq<Transfer>, a: nat, b: int): seq<Transfer> {
    if |ts| == 0 then []
    else
      var (rest, t) := (Between(ts[..|ts| - 1], a, b), ts[|ts| - 1]);
      if a <= t.block <= b then rest + [t] else rest
  }

  lemma {:induction false} BetweenElems(ts: seq<Transfer>, a: nat, b: int)
    ensures forall t :: t in Between(ts, a, b) <==> t in ts && a <= t.block <= b
  {
    if |ts| > 0 {
      var n := |ts| - 1;
      assert ts == ts[..n] + [ts[n]];
      BetweenElems(ts[..n], a, b);
    }
  }

  lemma {:induction false} NothingBetween(ts: seq<Transfer>, a: nat, b: int)
    requires forall i :: 0 <= i < |ts| ==> !(a <= ts[i].block <= b)
    ensures Between(ts, a, b) == []
  {
    if |ts| > 0 {
      NothingBetween(ts[..|ts| - 1], a, b);
    }
  }

  /** Adjacent ranges concatenate to the whole. */
  lemma {:induction false} BetweenSplit(ts: seq<Transfer>, a: nat, m: int, b: int)
    requires InOrder(ts) && a <= m + 1 && m <= b
    ensures m + 1 >= 0 && Between(ts, a, m) + Between(ts, m + 1, b) == Between(ts, a, b)
  {
    if |ts| > 0 {
      var n := |ts| - 1;
      BetweenSplit(ts[..n], a, m, b);
      if ts[n].block <= m {
        NothingBetween(ts[..n], m + 1, b);
      }
    }
  }

  /** Paginated reading returns what one unpaginated read of the range would. */
  method PaginateLogs(fromBlock: nat, toBlock: nat, fetchChunk: (nat, nat) -> seq<Transfer>, chunkSize: nat, ghost ts: seq<Transfer>)
    returns (results: seq<Transfer>)
    requires chunkSize > 0 && InOrder(ts)
    requires forall a: nat, b: nat :: fetchChunk(a, b) == Between(ts, a, b)
    ensures results == Between(ts, fromBlock, toBlock)
  {
    results := [];
    if fromBlock > toBlock {
      NothingBetween(ts, fromBlock, toBlock);
      return;
    }
    var from := fromBlock;
    NothingBetween(ts, fromBlock, fromBlock - 1);
    while from <= toBlock
      invariant fromBlock <= from
      invariant results == Between(ts, fromBlock, if from <= toBlock then from - 1 else toBlock)
    {
      var to := if from + chunkSize - 1 < toBlock then from + chunkSize - 1 else toBlock;
      var chunk := fetchChunk(from, to);
      BetweenSplit(ts, fromBlock, from - 1, to);
      results := results + chunk;
      from := from + chunkSize;
    }
  }

  // ---- The resume point ----------------------------------------------------

  function ScanFromBlock(startBlock: nat, lastScanned: Option<nat>): (from: nat)
    ensures from >= startBlock
    ensures lastScanned.Some? && lastScanned.value + 1 >= startBlock ==> from <= lastScanned.value + 1
  {
    if lastScanned.None? then startBlock
    else
      var resume := lastScanned.value - RESCAN_OVERLAP_BLOCKS + 1;
      if resume > startBlock then resume else startBlock
  }

  /** The finders replace block 0 by a look-back from the head. */
  function EffectiveFrom(fromBlock: nat, latest: nat, lookback: nat): nat {
    if fromBlock > 0 then fromBlock else if latest > lookback then latest - lookback else 0
  }

  // ---- Dedupe --------------------------------------------------------------

  datatype Key = Indexed(hash: nat, logIndex: nat) | Legacy(hash: nat, from: Address, amountAtomic: nat, block: nat)

  function TransferKey(t: Transfer): Key {
    if t.logIndex.Some? then Indexed(t.hash, t.logIndex.value) else Legacy(t.hash, t.from, t.amountAtomic, t.block)
  }

  /** Two transfers count as one exactly when both name the same log of one transaction,
      or, from before log indexes were kept, agree on transaction, sender, amount and block. */
  lemma SameKeyIff(t: Transfer, u: Transfer)
    ensures TransferKey(t) == TransferKey(u) <==>
            && t.hash == u.hash
            && if t.logIndex == None then u.logIndex == None && t.from == u.from && t.amountAtomic == u.amountAtomic && t.block == u.block
               else t.logIndex == u.logIndex
  {
  }

  predicate KeysDistinct(ts: seq<Transfer>) {
    forall i, j :: 0 <= i < j < |ts| ==> TransferKey(ts[i]) != TransferKey(ts[j])
  }

  /** `t` is the last transfer of its key: the one a Map keeps. */
  ghost predicate LastOfItsKey(all: seq<Transfer>, t: Transfer) {
    exists i :: 0 <= i < |all| && all[i] == t && forall j :: i < j < |all| ==> TransferKey(all[j]) != TransferKey(t)
  }

  /** What mergeTransfers keeps of a list, up to order. */
  function Merged(all: seq<Transfer>): seq<Transfer> {
    if |all| == 0 then []
    else
      var rest := Merged(all[1..]);
      if exists j :: 1 <= j < |all| && TransferKey(all[j]) == TransferKey(all[0]) then rest else [all[0]] + rest
  }

  lemma LastOfTail(all: seq<Transfer>, t: Transfer)
    requires |all| > 0
    ensures LastOfItsKey(all, t) <==>
            || LastOfItsKey(all[1..], t)
            || (t == all[0] && forall j :: 1 <= j < |all| ==> TransferKey(all[j]) != TransferKey(t))
  {
    var tail := all[1..];
    if LastOfItsKey(all, t) {
      var i :| 0 <= i < |all| && all[i] == t && forall j :: i < j < |all| ==> TransferKey(all[j]) != TransferKey(t);
      if i > 0 {
        assert tail[i - 1] == t && forall j :: i - 1 < j < |tail| ==> tail[j] == all[j + 1];
      }
    }
    if LastOfItsKey(tail, t) {
      var i :| 0 <= i < |tail| && tail[i] == t && forall j :: i < j < |tail| ==> TransferKey(tail[j]) != TransferKey(t);
      assert all[i + 1] == t && forall j :: i + 1 < j < |all| ==> all[j] == tail[j - 1];
    }
  }

  lemma {:induction false} MergedKeepsLast(all: seq<Transfer>)
    ensures forall t :: t in Merged(all) <==> LastOfItsKey(all, t)
    ensures KeysDistinct(Merged(all))
  {
    if |all| > 0 {
      MergedKeepsLast(all[1..]);
      forall t
        ensures t in Merged(all) <==> LastOfItsKey(all, t)
      {
        LastOfTail(all, t);
      }
      var rest := Merged(all[1..]);
      if forall j :: 1 <= j < |all| ==> TransferKey(all[j]) != TransferKey(all[0]) {
        forall i | 0 <= i < |rest|
          ensures TransferKey(rest[i]) != TransferKey(all[0])
        {
          assert rest[i] in rest && LastOfItsKey(all[1..], rest[i]);
        }
      }
    }
  }

  /** When equal keys mean equal transfers, merging keeps every transfer once. */
  lemma MergedIsUnion(all: seq<Transfer>)
    requires forall i, j :: 0 <= i < |all| && 0 <= j < |all| && TransferKey(all[i]) == TransferKey(all[j]) ==> all[i] == all[j]
    ensures NoDup(Merged(all)) && forall t :: t in Merged(all) <==> t in all
  {
    MergedKeepsLast(all);
    forall t | t in all
      ensures LastOfItsKey(all, t)
    {
      var i :| 0 <= i < |all| && all[i] == t;
      LastExists(all, i);
    }
  }

  lemma {:induction false} LastExists(all: seq<Transfer>, i: nat)
    requires forall i, j :: 0 <= i < |all| && 0 <= j < |all| && TransferKey(all[i]) == TransferKey(all[j]) ==> all[i] == all[j]
    requires i < |all|
    ensures LastOfItsKey(all, all[i])
    decreases |all| - i
  {
    if j :| i < j < |all| && TransferKey(all[j]) == TransferKey(all[i]) {
      LastExists(all, j);
    }
  }

  lemma LastAfterAppend(all: seq<Transfer>, x: Transfer)
    ensures LastOfItsKey(all + [x], x)
    ensures forall t :: LastOfItsKey(all, t) && TransferKey(t) != TransferKey(x) ==> LastOfItsKey(all + [x], t)
  {
    assert (all + [x])[|all|] == x;
    forall t | LastOfItsKey(all, t) && TransferKey(t) != TransferKey(x)
      ensures LastOfItsKey(all + [x], t)
    {
      var i :| 0 <= i < |all| && all[i] == t && forall j :: i < j < |all| ==> TransferKey(all[j]) != TransferKey(t);
      assert (all + [x])[i] == t;
    }
  }

  /** The Map after filling it with `all`, and the order in which keys entered it. */
  ghost predicate FilledWith(all: seq<Transfer>, byKey: map<Key, Transfer>, order: seq<Key>) {
    && NoDup(order) && (forall k :: k in order <==> k in byKey)
    && (forall k :: k in byKey ==> TransferKey(byKey[k]) == k && LastOfItsKey(all, byKey[k]))
    && (forall i :: 0 <= i < |all| ==> TransferKey(all[i]) in byKey)
  }

  lemma IndexOneMore(all: seq<Transfer>, byKey: map<Key, Transfer>, order: seq<Key>, t: Transfer)
    requires FilledWith(all, byKey, order)
    ensures var k := TransferKey(t); FilledWith(all + [t], byKey[k := t], if k in byKey then order else order + [k])
  {
    LastAfterAppend(all, t);
  }

  /** mergeTransfers: a Map filled in order, its values returned; the order of the
      result is left open. */
  method MergeTransfers(existing: seq<Transfer>, incoming: seq<Transfer>) returns (r: seq<Transfer>)
    ensures KeysDistinct(r)
    ensures forall t :: t in r <==> LastOfItsKey(existing + incoming, t)
    ensures multiset(r) == multiset(Merged(existing + incoming))
  {
    var all := existing + incoming;
    var byKey: map<Key, Transfer> := map[];
    var order: seq<Key> := [];
    for n := 0 to |all|
      invariant FilledWith(all[..n], byKey, order)
    {
      var key := TransferKey(all[n]);
      assert all[..n + 1] == all[..n] + [all[n]];
      IndexOneMore(all[..n], byKey, order, all[n]);
      if key !in byKey {
        order := order + [key];
      }
      byKey := byKey[key := all[n]];
    }
    assert all[..|all|] == all;
    r := Values(byKey, order);
    ValuesAreMerged(all, byKey, order);
  }

  lemma ValuesAreMerged(all: seq<Transfer>, byKey: map<Key, Transfer>, order: seq<Key>)
    requires FilledWith(all, byKey, order)
    ensures var r := Values(byKey, order);
            KeysDistinct(r) && (forall t :: t in r <==> LastOfItsKey(all, t)) && multiset(r) == multiset(Merged(all))
  {
    ValuesAreLast(all, byKey, order, Values(byKey, order));
    SameAsMerged(all, Values(byKey, order));
  }

  /** The Map's values, in the order in which their keys entered it. */
  function Values(byKey: map<Key, Transfer>, order: seq<Key>): (r: seq<Transfer>)
    requires forall k :: k in order <==> k in byKey
    ensures |r| == |order| && forall i :: 0 <= i < |r| ==> order[i] in byKey && r[i] == byKey[order[i]]
  {
    seq(|order|, i requires 0 <= i < |order| => assert order[i] in byKey; byKey[order[i]])
  }

  lemma SameAsMerged(all: seq<Transfer>, r: seq<Transfer>)
    requires KeysDistinct(r) && forall t :: t in r <==> LastOfItsKey(all, t)
    ensures multiset(r) == multiset(Merged(all))
  {
    MergedKeepsLast(all);
    NoDupSameElems(r, Merged(all));
  }

  lemma ValuesAreLast(all: seq<Transfer>, byKey: map<Key, Transfer>, order: seq<Key>, r: seq<Transfer>)
    requires FilledWith(all, byKey, order)
    requires |r| == |order| && forall i :: 0 <= i < |r| ==> order[i] in byKey && r[i] == byKey[order[i]]
    ensures KeysDistinct(r) && forall t :: t in r <==> LastOfItsKey(all, t)
  {
    forall t | LastOfItsKey(all, t)
      ensures t in r
    {
      var k := TransferKey(t);
      var i :| 0 <= i < |order| && order[i] == k;
      LastIsUnique(all, t, byKey[k]);
      assert r[i] == t;
    }
  }

  lemma LastIsUnique(all: seq<Transfer>, t: Transfer, u: Transfer)
    requires LastOfItsKey(all, t) && LastOfItsKey(all, u) && TransferKey(t) == TransferKey(u)
    ensures t == u
  {
  }
}
