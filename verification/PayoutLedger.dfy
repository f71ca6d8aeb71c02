/** The payouts table and its guarded updates (src/payouts/payout-ledger.service.ts). */
module PayoutLedger {
  import opened Common
  import opened SqlPatch

  type Id = nat
  type Address = nat
  type Asset = nat
  type TxHash = nat
  type Time = nat

  datatype Status = Prepared | Authorized | Broadcasted | Confirmed | Failed

  /** The columns no patch may name: they are not in the whitelist. */
  datatype Fixed = Fixed(clientId: Option<string>, externalId: string, asset: Asset, amountAtomic: nat, beneficiary: Address)

  datatype Payout = Payout(
    fixed: Fixed,
    status: Status,
    transactionHash: Option<TxHash>,
    failureReason: Option<string>,
    authorizedAt: Option<Time>,
    broadcastedAt: Option<Time>,
    confirmedAt: Option<Time>)

  type Rows = map<Id, Payout>

  /** `None` is an absent property, `Some(v)` writes v (which may itself be null). */
  datatype PayoutPatch = PayoutPatch(
    status: Option<Status>,
    transactionHash: Option<Option<TxHash>>,
    failureReason: Option<Option<string>>,
    authorizedAt: Option<Option<Time>>,
    broadcastedAt: Option<Option<Time>>,
    confirmedAt: Option<Option<Time>>)

  const NoPatch := PayoutPatch(None, None, None, None, None, None)

  function Or<T>(o: Option<T>, default: T): T {
    match o case Some(v) => v case None => default
  }

  function Patched(p: Payout, d: PayoutPatch): Payout {
    Payout(p.fixed,
           Or(d.status, p.status),
           Or(d.transactionHash, p.transactionHash),
           Or(d.failureReason, p.failureReason),
           Or(d.authorizedAt, p.authorizedAt),
           Or(d.broadcastedAt, p.broadcastedAt),
           Or(d.confirmedAt, p.confirmedAt))
  }

  predicate Matches(rows: Rows, id: Id, guard: Option<set<Status>>) {
    id in rows && (guard.Some? ==> rows[id].status in guard.value)
  }

  /** One `UPDATE ... WHERE id = $1 [AND status = ANY(...)]`. */
  function Updated(rows: Rows, id: Id, d: PayoutPatch, guard: Option<set<Status>>): Rows {
    if Matches(rows, id, guard) then rows[id := Patched(rows[id], d)] else rows
  }

  // ---- The statement the ledger builds -------------------------------------

  datatype Column =
    | ColStatus | ColTreasuryAddress | ColTransactionHash | ColFailureReason | ColMetadata
    | ColAuthorizedAt | ColBroadcastedAt | ColConfirmedAt | ColFixed

  datatype Key =
    | KStatus | KTreasuryAddress | KTransactionHash | KFailureReason | KMetadata
    | KAuthorizedAt | KBroadcastedAt | KConfirmedAt | KFixed

  datatype Value =
    | VStatus(status: Status) | VHash(hash: Option<TxHash>) | VText(text: Option<string>) | VTime(time: Option<Time>)
    | VFixed(fixed: Fixed) | VId(id: Id) | VStatuses(statuses: set<Status>)

  /** The PATCH_COLUMNS whitelist. */
  function PatchColumns(k: Key): Option<PatchColumn<Column>> {
    match k
    case KStatus => Some(PatchColumn(ColStatus, false))
    case KTreasuryAddress => Some(PatchColumn(ColTreasuryAddress, false))
    case KTransactionHash => Some(PatchColumn(ColTransactionHash, false))
    case KFailureReason => Some(PatchColumn(ColFailureReason, false))
    case KMetadata => Some(PatchColumn(ColMetadata, true))
    case KAuthorizedAt => Some(PatchColumn(ColAuthorizedAt, false))
    case KBroadcastedAt => Some(PatchColumn(ColBroadcastedAt, false))
    case KConfirmedAt => Some(PatchColumn(ColConfirmedAt, false))
    case KFixed => None
  }

  /** JSON text, with its cast, goes to the metadata alone. */
  lemma JsonColumn(k: Key)
    requires PatchColumns(k).Some?
    ensures PatchColumns(k).value.json <==> k == KMetadata
  {
  }

  function Entries(d: PayoutPatch): Patch<Key, Value> {
    [ (KStatus, if d.status.Some? then Some(VStatus(d.status.value)) else None),
      (KTransactionHash, if d.transactionHash.Some? then Some(VHash(d.transactionHash.value)) else None),
      (KFailureReason, if d.failureReason.Some? then Some(VText(d.failureReason.value)) else None),
      (KAuthorizedAt, if d.authorizedAt.Some? then Some(VTime(d.authorizedAt.value)) else None),
      (KBroadcastedAt, if d.broadcastedAt.Some? then Some(VTime(d.broadcastedAt.value)) else None),
      (KConfirmedAt, if d.confirmedAt.Some? then Some(VTime(d.confirmedAt.value)) else None) ]
  }

  /** The row as the database holds it; the two columns the record type leaves
      out are kept as they are. */
  function Cells(p: Payout): Column -> Value {
    (c: Column) => match c
      case ColFixed => VFixed(p.fixed)
      case ColStatus => VStatus(p.status)
      case ColTransactionHash => VHash(p.transactionHash)
      case ColFailureReason => VText(p.failureReason)
      case ColAuthorizedAt => VTime(p.authorizedAt)
      case ColBroadcastedAt => VTime(p.broadcastedAt)
      case ColConfirmedAt => VTime(p.confirmedAt)
      case ColTreasuryAddress => VText(None)
      case ColMetadata => VText(None)
  }

  predicate Readable(c: Column -> Value) {
    && c(ColFixed).VFixed? && c(ColStatus).VStatus? && c(ColTransactionHash).VHash? && c(ColFailureReason).VText?
    && c(ColAuthorizedAt).VTime? && c(ColBroadcastedAt).VTime? && c(ColConfirmedAt).VTime?
  }

  /** rowToPayout. */
  function FromCells(c: Column -> Value): Payout
    requires Readable(c)
  {
    Payout(c(ColFixed).fixed, c(ColStatus).status, c(ColTransactionHash).hash, c(ColFailureReason).text,
           c(ColAuthorizedAt).time, c(ColBroadcastedAt).time, c(ColConfirmedAt).time)
  }

  lemma EntriesAreWhitelisted(d: PayoutPatch)
    ensures Supported(Entries(d), PatchColumns) && KeysDistinct(Entries(d)) && ColumnsInjective(PatchColumns)
  {
  }

  lemma UnpatchedColumn(p: Payout, d: PayoutPatch, c: Column)
    requires forall i :: 0 <= i < |Entries(d)| && Entries(d)[i].1.Some? ==> PatchColumns(Entries(d)[i].0).value.column != c
    ensures Cells(Patched(p, d))(c) == Cells(p)(c)
  {
    var e := Entries(d);
    assert e[0].1.Some? ==> c != ColStatus;
    assert e[1].1.Some? ==> c != ColTransactionHash;
    assert e[2].1.Some? ==> c != ColFailureReason;
    assert e[3].1.Some? ==> c != ColAuthorizedAt;
    assert e[4].1.Some? ==> c != ColBroadcastedAt;
    assert e[5].1.Some? ==> c != ColConfirmedAt;
  }

  lemma PatchedColumn(p: Payout, d: PayoutPatch, i: nat)
    requires i < |Entries(d)| && Entries(d)[i].1.Some?
    ensures Cells(Patched(p, d))(PatchColumns(Entries(d)[i].0).value.column) == Entries(d)[i].1.value
  {
  }

  /** Writing a patch through the whitelist and reading the row back is the typed
      record update: no other column moves, and no fixed column is reachable. */
  lemma WrittenPatchIsTypedUpdate(p: Payout, d: PayoutPatch, after: Column -> Value)
    requires Supported(Entries(d), PatchColumns) && WritesExactly(Cells(p), after, Entries(d), PatchColumns)
    ensures Readable(after) && FromCells(after) == Patched(p, d)
  {
    var e := Entries(d);
    forall c: Column
      ensures after(c) == Cells(Patched(p, d))(c)
    {
      if i :| 0 <= i < |e| && e[i].1.Some? && PatchColumns(e[i].0).value.column == c {
        PatchedColumn(p, d, i);
      } else {
        UnpatchedColumn(p, d, c);
      }
    }
  }

  class Ledger {
    var rows: Rows

    constructor ()
      ensures rows == map[]
    {
      rows := map[];
    }

    /** INSERT ... ON CONFLICT (client_id, external_id) DO NOTHING, then a read of
        the row in the way. The index does not bind rows without a client. */
    method CreateOrGetExisting(id: Id, record: Payout) returns (found: Option<Id>, existed: bool)
      requires id !in rows
      modifies this
      ensures existed <==> exists k :: k in old(rows) && Clashes(old(rows)[k], record)
      ensures !existed ==> found == Some(id) && rows == old(rows)[id := record]
      ensures existed ==> rows == old(rows) && found.Some? && found.value in rows && Clashes(rows[found.value], record)
    {
      if k :| k in rows && Clashes(rows[k], record) {
        return Some(k), true;
      }
      rows := rows[id := record];
      return Some(id), false;
    }

    method Update(id: Id, d: PayoutPatch, guard: Option<set<Status>>) returns (r: Option<Payout>)
      modifies this
      ensures rows == Updated(old(rows), id, d, guard)
      ensures r.Some? <==> Matches(old(rows), id, guard)
      ensures r.Some? ==> rows[id] == r.value && r.value.fixed == old(rows)[id].fixed
    {
      var values := new Values<Value>([Plain(VId(id))]);
      var built := BuildPatchSet(Entries(d), PatchColumns, values);
      EntriesAreWhitelisted(d);
      ghost var guards: seq<Param<Value>> := [];
      if guard.Some? {
        values.Push(Plain(VStatuses(guard.value)));
        guards := [Plain(VStatuses(guard.value))];
      }
      if !Matches(rows, id, guard) {
        return None;
      }
      BuiltSetWritesExactlyThePatch(Cells(rows[id]), Entries(d), PatchColumns, [Plain(VId(id))], guards);
      assert values.params == [Plain(VId(id))] + ParamsOf(Entries(d), PatchColumns) + guards;
      var cells := ExecuteSet(Cells(rows[id]), built.sets, values.params);
      WrittenPatchIsTypedUpdate(rows[id], d, cells.value);
      var row := FromCells(cells.value);
      rows := rows[id := row];
      return Some(row);
    }
  }

  predicate Clashes(existing: Payout, record: Payout) {
    && record.fixed.clientId.Some?
    && existing.fixed.clientId == record.fixed.clientId
    && existing.fixed.externalId == record.fixed.externalId
  }
}
