/** The claim loop of authorizePayoutBatch, run against the ledger itself. */
module PayoutClaims {
  import opened Common
  import opened PayoutLedger
  import opened PayoutProtocol

  function Claimed(p: Payout, now: Time): Payout {
    Patched(p, ClaimPatch(now))
  }

  /** Undisturbed, the loop is all-or-nothing: either every leg was prepared and is
      now authorized, or a leg was not and every row has its old status, hash and
      fixed columns back. Rows outside the request are never touched. */
  method ClaimLegs(ledger: Ledger, ids: seq<Id>, now: Time) returns (claimed: seq<Payout>, ok: bool)
    requires NoDup(ids)
    modifies ledger
    ensures ledger.rows.Keys == old(ledger.rows.Keys)
    ensures ok <==> forall k :: 0 <= k < |ids| ==> ids[k] in old(ledger.rows) && old(ledger.rows)[ids[k]].status == Prepared
    ensures ok ==> |claimed| == |ids| && forall k :: 0 <= k < |ids| ==>
                     claimed[k] == ledger.rows[ids[k]] == Claimed(old(ledger.rows)[ids[k]], now)
    ensures !ok ==> forall id :: id in old(ledger.rows) ==>
                      ledger.rows[id] == old(ledger.rows)[id].(authorizedAt := ledger.rows[id].authorizedAt)
    ensures forall id :: id in old(ledger.rows) && id !in ids ==> ledger.rows[id] == old(ledger.rows)[id]
  {
    ghost var before := ledger.rows;
    claimed := [];
    for n := 0 to |ids|
      invariant ledger.rows.Keys == before.Keys && |claimed| == n
      invariant forall k :: 0 <= k < n ==> ids[k] in before && before[ids[k]].status == Prepared
      invariant forall k :: 0 <= k < n ==> claimed[k] == ledger.rows[ids[k]] == Claimed(before[ids[k]], now)
      invariant forall id :: id in before && id !in ids[..n] ==> ledger.rows[id] == before[id]
    {
      var authorized := ledger.Update(ids[n], ClaimPatch(now), ONLY_PREPARED);
      if authorized.None? {
        Release(ledger, ids[..n], before, now);
        return claimed, false;
      }
      claimed := claimed + [authorized.value];
    }
    return claimed, true;
  }

  method Release(ledger: Ledger, ids: seq<Id>, ghost before: Rows, ghost now: Time)
    requires NoDup(ids) && ledger.rows.Keys == before.Keys
    requires forall k :: 0 <= k < |ids| ==>
               ids[k] in before && before[ids[k]].status == Prepared && ledger.rows[ids[k]] == Claimed(before[ids[k]], now)
    modifies ledger
    ensures ledger.rows.Keys == before.Keys
    ensures forall k :: 0 <= k < |ids| ==> ledger.rows[ids[k]] == before[ids[k]].(authorizedAt := Some(now))
    ensures forall id :: id in before && id !in ids ==> ledger.rows[id] == old(ledger.rows)[id]
  {
    for m := 0 to |ids|
      invariant ledger.rows.Keys == before.Keys
      invariant forall k :: 0 <= k < m ==> ledger.rows[ids[k]] == before[ids[k]].(authorizedAt := Some(now))
      invariant forall id :: id in before && id !in ids[..m] ==> ledger.rows[id] == old(ledger.rows)[id]
    {
      var _ := ledger.Update(ids[m], ReleasePatch(None), ONLY_AUTHORIZED);
    }
  }
}
