/** The reference of a payout batch (src/blockchain/blockchain.service.ts): the
    digest of the sorted external ids joined with '|'. */
module BatchRef {
  import opened Common
  import opened Keccak
  import Vault = SettlementVault
  import VaultTheorems

  /** JavaScript's default string order: by code unit, prefixes first. */
  predicate Before(a: string, b: string) {
    if |a| == 0 then true
    else if |b| == 0 then false
    else if a[0] != b[0] then a[0] < b[0]
    else Before(a[1..], b[1..])
  }

  /** The order, without recursion: a is a prefix of b, or smaller where they first differ. */
  lemma {:induction false} BeforeIffFirstDifference(a: string, b: string)
    ensures Before(a, b) <==>
            || a <= b
            || exists k :: 0 <= k < |a| && k < |b| && a[..k] == b[..k] && a[k] < b[k]
  {
    if |a| > 0 && |b| > 0 && a[0] == b[0] {
      BeforeIffFirstDifference(a[1..], b[1..]);
      assert a == [a[0]] + a[1..] && b == [b[0]] + b[1..];
      if k :| 0 <= k < |a| - 1 && k < |b| - 1 && a[1..][..k] == b[1..][..k] && a[1..][k] < b[1..][k] {
        assert a[..k + 1] == [a[0]] + a[1..][..k] && b[..k + 1] == [b[0]] + b[1..][..k];
      }
      if k :| 0 <= k < |a| && k < |b| && a[..k] == b[..k] && a[k] < b[k] {
        assert k > 0 && a[1..][..k - 1] == a[..k][1..] && b[1..][..k - 1] == b[..k][1..];
      }
    } else if |a| > 0 && |b| > 0 {
      assert a[..0] == b[..0];
    }
  }

  predicate Sorted(ids: seq<string>) {
    forall i, j :: 0 <= i < j < |ids| ==> Before(ids[i], ids[j])
  }

  lemma {:induction false} BeforeIsTotal(a: string, b: string)
    ensures Before(a, b) || Before(b, a)
    ensures Before(a, b) && Before(b, a) ==> a == b
  {
    if |a| > 0 && |b| > 0 && a[0] == b[0] {
      BeforeIsTotal(a[1..], b[1..]);
      assert a == [a[0]] + a[1..] && b == [b[0]] + b[1..];
    }
  }

  lemma {:induction false} BeforeIsTransitive(a: string, b: string, c: string)
    requires Before(a, b) && Before(b, c)
    ensures Before(a, c)
  {
    if |a| > 0 && a[0] == b[0] == c[0] {
      BeforeIsTransitive(a[1..], b[1..], c[1..]);
    }
  }

  function Insert(x: string, ids: seq<string>): (r: seq<string>)
    requires Sorted(ids)
    ensures Sorted(r) && multiset(r) == multiset(ids) + multiset{x}
  {
    if |ids| == 0 then [x]
    else if Before(x, ids[0]) then
      InsertedFirst(x, ids);
      [x] + ids
    else
      var rest := Insert(x, ids[1..]);
      InsertedLater(x, ids, rest);
      [ids[0]] + rest
  }

  lemma InsertedFirst(x: string, ids: seq<string>)
    requires Sorted(ids) && |ids| > 0 && Before(x, ids[0])
    ensures Sorted([x] + ids) && multiset([x] + ids) == multiset(ids) + multiset{x}
  {
    forall j | 0 <= j < |ids|
      ensures Before(x, ids[j])
    {
      if j > 0 {
        BeforeIsTransitive(x, ids[0], ids[j]);
      }
    }
  }

  lemma InsertedLater(x: string, ids: seq<string>, rest: seq<string>)
    requires Sorted(ids) && |ids| > 0 && !Before(x, ids[0])
    requires Sorted(rest) && multiset(rest) == multiset(ids[1..]) + multiset{x}
    ensures Sorted([ids[0]] + rest) && multiset([ids[0]] + rest) == multiset(ids) + multiset{x}
  {
    BeforeIsTotal(x, ids[0]);
    forall j | 0 <= j < |rest|
      ensures Before(ids[0], rest[j])
    {
      assert rest[j] in multiset(rest);
      assert rest[j] in ids[1..] || rest[j] == x;
    }
    assert ids == [ids[0]] + ids[1..];
  }

  function Sort(ids: seq<string>): (r: seq<string>)
    ensures Sorted(r) && multiset(r) == multiset(ids)
  {
    if |ids| == 0 then []
    else
      assert ids == ids[..|ids| - 1] + [ids[|ids| - 1]];
      Insert(ids[|ids| - 1], Sort(ids[..|ids| - 1]))
  }

  function Join(ids: seq<string>): string {
    if |ids| == 0 then ""
    else if |ids| == 1 then ids[0]
    else ids[0] + "|" + Join(ids[1..])
  }

  function BatchRefOf(externalIds: seq<string>): Word {
    KeccakText(Join(Sort(externalIds)))
  }

  /** What the payout DTO's pattern grants: not empty, and no separator. */
  predicate ValidId(id: string) {
    |id| > 0 && '|' !in id
  }

  predicate ValidIds(ids: seq<string>) {
    forall i :: 0 <= i < |ids| ==> ValidId(ids[i])
  }

  // ---- Sorting is canonical ------------------------------------------------

  lemma {:induction false} SortedIsCanonical(a: seq<string>, b: seq<string>)
    requires Sorted(a) && Sorted(b) && multiset(a) == multiset(b)
    ensures a == b
    decreases |a|
  {
    if |a| == 0 {
      assert |multiset(b)| == 0;
    } else {
      assert |multiset(b)| == |b| > 0;
      assert a == [a[0]] + a[1..] && b == [b[0]] + b[1..];
      FirstIsLeast(a, b);
      FirstIsLeast(b, a);
      BeforeIsTotal(a[0], b[0]);
      PermutationTail(a[1..], b[1..], a[0], a, b);
      SortedIsCanonical(a[1..], b[1..]);
    }
  }

  lemma FirstIsLeast(a: seq<string>, b: seq<string>)
    requires Sorted(a) && multiset(a) == multiset(b) && |a| > 0 && |b| > 0
    ensures Before(a[0], b[0])
  {
    assert b[0] in multiset(a);
    BeforeIsTotal(a[0], a[0]);
  }

  // ---- Joining is injective ------------------------------------------------

  lemma JoinParts(ids: seq<string>)
    requires ValidIds(ids) && |ids| > 0
    ensures UpTo(Join(ids), '|') == ids[0] && |Join(ids)| > 0
    ensures |ids| == 1 ==> Join(ids) == ids[0]
    ensures |ids| > 1 ==> |Join(ids)| > |ids[0]| && Join(ids)[|ids[0]| + 1..] == Join(ids[1..])
  {
    if |ids| == 1 {
      assert ids[0] + "" == ids[0];
      UpToSeparator(ids[0], '|', "");
    } else {
      assert ids[0] + "|" + Join(ids[1..]) == ids[0] + ("|" + Join(ids[1..]));
      UpToSeparator(ids[0], '|', "|" + Join(ids[1..]));
    }
  }

  lemma {:induction false} JoinIsInjective(a: seq<string>, b: seq<string>)
    requires ValidIds(a) && ValidIds(b) && Join(a) == Join(b)
    ensures a == b
  {
    if |a| > 0 {
      JoinParts(a);
    }
    if |b| > 0 {
      JoinParts(b);
    }
    if |a| > 1 {
      JoinIsInjective(a[1..], b[1..]);
      assert a == [a[0]] + a[1..] && b == [b[0]] + b[1..];
    }
  }

  lemma SortedIdsAreValid(ids: seq<string>)
    requires ValidIds(ids)
    ensures ValidIds(Sort(ids))
  {
    var r := Sort(ids);
    forall i | 0 <= i < |r|
      ensures ValidId(r[i])
    {
      assert r[i] in multiset(ids);
    }
  }

  /** Two batches of valid ids share a reference exactly when they hold the same
      ids with the same multiplicities, in whatever order. */
  lemma SameRefIffSameIds(a: seq<string>, b: seq<string>)
    requires ValidIds(a) && ValidIds(b)
    ensures BatchRefOf(a) == BatchRefOf(b) <==> multiset(a) == multiset(b)
  {
    if multiset(a) == multiset(b) {
      SortedIsCanonical(Sort(a), Sort(b));
    }
    if BatchRefOf(a) == BatchRefOf(b) {
      SortedIdsAreValid(a);
      SortedIdsAreValid(b);
      JoinIsInjective(Sort(a), Sort(b));
    }
  }

  /** An id that contained the separator could collide with a two-leg batch. */
  lemma SeparatorInIdCollides(x: string, y: string)
    requires Before(x, y)
    ensures BatchRefOf([x + "|" + y]) == BatchRefOf([x, y]) && multiset([x + "|" + y]) != multiset([x, y])
  {
    SortedIsCanonical(Sort([x + "|" + y]), [x + "|" + y]);
    SortedIsCanonical(Sort([x, y]), [x, y]);
    assert [x, y][1..] == [y] && Join([y]) == y;
    assert |multiset([x + "|" + y])| == 1 && |multiset([x, y])| == 2;
  }

  /** Replay protection end to end: over every run of the vault, two batch executions
      in one token never come from the same ids, in whatever order they are given. */
  lemma SameIdsAreNeverBatchedTwice(
    s: Vault.State, calls: seq<(Address, Vault.Call)>, i: nat, j: nat, a: seq<string>, b: seq<string>)
    requires Vault.Deployed(s) && ValidIds(a) && ValidIds(b) && i < j < |Vault.Run(s, calls).log|
    requires var (e, f) := (Vault.Run(s, calls).log[i], Vault.Run(s, calls).log[j]);
             && e.BatchExecuted? && f.BatchExecuted? && e.batchToken == f.batchToken
             && e.batchRef == BatchRefOf(a) && f.batchRef == BatchRefOf(b)
    ensures multiset(a) != multiset(b)
  {
    VaultTheorems.EveryRunIsAccountedFor(s, calls);
    SameRefIffSameIds(a, b);
  }
}
