/** The pay-ins table and its guarded updates (src/payins/payin-ledger.service.ts). */
module PayInLedger {
  import opened Common
  import opened Keccak
  import opened SqlPatch
  import opened ChainScan

  type Time = nat
  type TxHash = nat
  type Id = nat

  datatype Status = Pending | Detected | Confirmed | Expired | Underpaid | Overpaid
  datatype SweepStatus = NotRequired | SweepPending | SweepBroadcasted | SweepConfirmed | SweepFailed
  datatype Mode = DerivedAddress | PaymentRouterMode

  /** The columns no patch may name: they are not in the whitelist. */
  datatype Terms = Terms(
    clientId: Option<string>, externalId: string, mode: Mode, watch: Watch, derivationIndex: int,
    expectedAtomic: nat, startBlock: nat, expiresAt: Option<Time>)

  datatype PayIn = PayIn(
    terms: Terms,
    status: Status, receivedAtomic: nat, transfers: seq<Transfer>, lastScanned: Option<nat>,
    detectedAt: Option<Time>, confirmedAt: Option<Time>, acceptedAt: Option<Time>,
    sweepStatus: SweepStatus, sweepHash: Option<TxHash>, sweptAtomic: nat, sweptAt: Option<Time>, sweepFailure: Option<string>)

  datatype PayInPatch = PayInPatch(
    status: Option<Status>, receivedAtomic: Option<nat>, transfers: Option<seq<Transfer>>, lastScanned: Option<Option<nat>>,
    detectedAt: Option<Option<Time>>, confirmedAt: Option<Option<Time>>, acceptedAt: Option<Option<Time>>,
    sweepStatus: Option<SweepStatus>, sweepHash: Option<Option<TxHash>>, sweptAtomic: Option<nat>,
    sweptAt: Option<Option<Time>>, sweepFailure: Option<Option<string>>)

  const NoPatch := PayInPatch(None, None, None, None, None, None, None, None, None, None, None, None)

  function Or<T>(o: Option<T>, default: T): T {
    match o case Some(v) => v case None => default
  }

  function Patched(p: PayIn, d: PayInPatch): PayIn {
    PayIn(p.terms,
          Or(d.status, p.status), Or(d.receivedAtomic, p.receivedAtomic), Or(d.transfers, p.transfers), Or(d.lastScanned, p.lastScanned),
          Or(d.detectedAt, p.detectedAt), Or(d.confirmedAt, p.confirmedAt), Or(d.acceptedAt, p.acceptedAt),
          Or(d.sweepStatus, p.sweepStatus), Or(d.sweepHash, p.sweepHash), Or(d.sweptAtomic, p.sweptAtomic),
          Or(d.sweptAt, p.sweptAt), Or(d.sweepFailure, p.sweepFailure))
  }

  datatype Guard = Guard(expectedStatus: Option<set<Status>>, expectedSweepStatus: Option<set<SweepStatus>>)

  const UNGUARDED := Guard(None, None)

  predicate Allows(g: Guard, p: PayIn) {
    && (g.expectedStatus.Some? ==> p.status in g.expectedStatus.value)
    && (g.expectedSweepStatus.Some? ==> p.sweepStatus in g.expectedSweepStatus.value)
  }

  /** One guarded UPDATE of one row. */
  function Updated(p: PayIn, d: PayInPatch, g: Guard): PayIn {
    if Allows(g, p) then Patched(p, d) else p
  }

  // ---- The statement the ledger builds -------------------------------------

  datatype Key =
    | KStatus | KReceivedAmount | KReceivedAmountAtomic | KSweepStatus | KSweepTransactionHash | KSweptAmount | KSweptAmountAtomic
    | KSweptAt | KSweepFailureReason | KLastScannedBlock | KAcceptedAt | KAcceptanceNote | KMetadata | KTransfers
    | KDetectedAt | KConfirmedAt | KTerms

  datatype Column =
    | ColStatus | ColReceivedAmount | ColReceivedAmountAtomic | ColSweepStatus | ColSweepTxHash | ColSweptAmount | ColSweptAmountAtomic
    | ColSweptAt | ColSweepFailureReason | ColLastScannedBlock | ColAcceptedAt | ColAcceptanceNote | ColMetadata | ColTransfers
    | ColDetectedAt | ColConfirmedAt | ColTerms

  datatype Value =
    | VStatus(status: Status) | VSweep(sweep: SweepStatus) | VNat(n: nat) | VOpt(o: Option<nat>) | VText(text: Option<string>)
    | VTransfers(transfers: seq<Transfer>) | VTerms(terms: Terms) | VId(id: Id)
    | VStatuses(statuses: set<Status>) | VSweeps(sweeps: set<SweepStatus>)

  /** The PATCH_COLUMNS whitelist. */
  function PatchColumns(k: Key): Option<PatchColumn<Column>> {
    match k
    case KStatus => Some(PatchColumn(ColStatus, false))
    case KReceivedAmount => Some(PatchColumn(ColReceivedAmount, false))
    case KReceivedAmountAtomic => Some(PatchColumn(ColReceivedAmountAtomic, false))
    case KSweepStatus => Some(PatchColumn(ColSweepStatus, false))
    case KSweepTransactionHash => Some(PatchColumn(ColSweepTxHash, false))
    case KSweptAmount => Some(PatchColumn(ColSweptAmount, false))
    case KSweptAmountAtomic => Some(PatchColumn(ColSweptAmountAtomic, false))
    case KSweptAt => Some(PatchColumn(ColSweptAt, false))
    case KSweepFailureReason => Some(PatchColumn(ColSweepFailureReason, false))
    case KLastScannedBlock => Some(PatchColumn(ColLastScannedBlock, false))
    case KAcceptedAt => Some(PatchColumn(ColAcceptedAt, false))
    case KAcceptanceNote => Some(PatchColumn(ColAcceptanceNote, false))
    case KMetadata => Some(PatchColumn(ColMetadata, true))
    case KTransfers => Some(PatchColumn(ColTransfers, true))
    case KDetectedAt => Some(PatchColumn(ColDetectedAt, false))
    case KConfirmedAt => Some(PatchColumn(ColConfirmedAt, false))
    case KTerms => None
  }

  /** JSON text, with its cast, goes to the metadata and the transfers alone. */
  lemma JsonColumns(k: Key)
    requires PatchColumns(k).Some?
    ensures PatchColumns(k).value.json <==> k == KMetadata || k == KTransfers
  {
  }

  /** The value a patch gives to a property, if it has it. */
  function Given(d: PayInPatch, k: Key): Option<Value> {
    match k
    case KStatus => if d.status.Some? then Some(VStatus(d.status.value)) else None
    case KReceivedAmountAtomic => if d.receivedAtomic.Some? then Some(VNat(d.receivedAtomic.value)) else None
    case KTransfers => if d.transfers.Some? then Some(VTransfers(d.transfers.value)) else None
    case KLastScannedBlock => if d.lastScanned.Some? then Some(VOpt(d.lastScanned.value)) else None
    case KDetectedAt => if d.detectedAt.Some? then Some(VOpt(d.detectedAt.value)) else None
    case KConfirmedAt => if d.confirmedAt.Some? then Some(VOpt(d.confirmedAt.value)) else None
    case KAcceptedAt => if d.acceptedAt.Some? then Some(VOpt(d.acceptedAt.value)) else None
    case KSweepStatus => if d.sweepStatus.Some? then Some(VSweep(d.sweepStatus.value)) else None
    case KSweepTransactionHash => if d.sweepHash.Some? then Some(VOpt(d.sweepHash.value)) else None
    case KSweptAmountAtomic => if d.sweptAtomic.Some? then Some(VNat(d.sweptAtomic.value)) else None
    case KSweptAt => if d.sweptAt.Some? then Some(VOpt(d.sweptAt.value)) else None
    case KSweepFailureReason => if d.sweepFailure.Some? then Some(VText(d.sweepFailure.value)) else None
    case _ => None
  }

  /** The properties of a patch object, in some order, and where each one sits. */
  function KeyAt(i: nat): Key
    requires i < 12
  {
    if i < 6 then
      if i == 0 then KStatus else if i == 1 then KReceivedAmountAtomic else if i == 2 then KTransfers
      else if i == 3 then KLastScannedBlock else if i == 4 then KDetectedAt else KConfirmedAt
    else
      if i == 6 then KAcceptedAt else if i == 7 then KSweepStatus else if i == 8 then KSweepTransactionHash
      else if i == 9 then KSweptAmountAtomic else if i == 10 then KSweptAt else KSweepFailureReason
  }

  function PositionOf(k: Key): Option<nat> {
    match k
    case KStatus => Some(0)
    case KReceivedAmountAtomic => Some(1)
    case KTransfers => Some(2)
    case KLastScannedBlock => Some(3)
    case KDetectedAt => Some(4)
    case KConfirmedAt => Some(5)
    case KAcceptedAt => Some(6)
    case KSweepStatus => Some(7)
    case KSweepTransactionHash => Some(8)
    case KSweptAmountAtomic => Some(9)
    case KSweptAt => Some(10)
    case KSweepFailureReason => Some(11)
    case _ => None
  }

  function Entries(d: PayInPatch): Patch<Key, Value> {
    seq(12, i requires 0 <= i < 12 => (KeyAt(i), Given(d, KeyAt(i))))
  }

  /** The row as the database holds it; columns the record type leaves out keep a
      fixed value. */
  function Cell(p: PayIn, c: Column): Value {
    match c
    case ColStatus => VStatus(p.status)
    case ColReceivedAmountAtomic => VNat(p.receivedAtomic)
    case ColTransfers => VTransfers(p.transfers)
    case ColLastScannedBlock => VOpt(p.lastScanned)
    case ColDetectedAt => VOpt(p.detectedAt)
    case ColConfirmedAt => VOpt(p.confirmedAt)
    case ColAcceptedAt => VOpt(p.acceptedAt)
    case ColSweepStatus => VSweep(p.sweepStatus)
    case ColSweepTxHash => VOpt(p.sweepHash)
    case ColSweptAmountAtomic => VNat(p.sweptAtomic)
    case ColSweptAt => VOpt(p.sweptAt)
    case ColSweepFailureReason => VText(p.sweepFailure)
    case ColTerms => VTerms(p.terms)
    case _ => VText(None)
  }

  function Cells(p: PayIn): Column -> Value {
    (c: Column) => Cell(p, c)
  }

  predicate Readable(c: Column -> Value) {
    && c(ColStatus).VStatus? && c(ColReceivedAmountAtomic).VNat? && c(ColTransfers).VTransfers? && c(ColLastScannedBlock).VOpt?
    && c(ColDetectedAt).VOpt? && c(ColConfirmedAt).VOpt? && c(ColAcceptedAt).VOpt? && c(ColSweepStatus).VSweep?
    && c(ColSweepTxHash).VOpt? && c(ColSweptAmountAtomic).VNat? && c(ColSweptAt).VOpt? && c(ColSweepFailureReason).VText?
    && c(ColTerms).VTerms?
  }

  /** rowToPayIn. */
  function FromCells(c: Column -> Value): PayIn
    requires Readable(c)
  {
    PayIn(c(ColTerms).terms, c(ColStatus).status, c(ColReceivedAmountAtomic).n, c(ColTransfers).transfers, c(ColLastScannedBlock).o,
          c(ColDetectedAt).o, c(ColConfirmedAt).o, c(ColAcceptedAt).o, c(ColSweepStatus).sweep, c(ColSweepTxHash).o,
          c(ColSweptAmountAtomic).n, c(ColSweptAt).o, c(ColSweepFailureReason).text)
  }

  lemma KeyAtPosition(i: nat)
    requires i < 12
    ensures PositionOf(KeyAt(i)) == Some(i) && PatchColumns(KeyAt(i)).Some?
  {
  }

  lemma WhitelistIsInjective()
    ensures ColumnsInjective(PatchColumns)
  {
  }

  lemma EntriesAreWhitelisted(d: PayInPatch)
    ensures Supported(Entries(d), PatchColumns) && SqlPatch.KeysDistinct(Entries(d)) && ColumnsInjective(PatchColumns)
  {
    WhitelistIsInjective();
    var e := Entries(d);
    forall i | 0 <= i < 12
      ensures PositionOf(e[i].0) == Some(i) && PatchColumns(e[i].0).Some?
    {
      KeyAtPosition(i);
    }
  }

  lemma PatchedColumn(p: PayIn, d: PayInPatch, k: Key)
    requires Given(d, k).Some?
    ensures PatchColumns(k).Some? && Cells(Patched(p, d))(PatchColumns(k).value.column) == Given(d, k).value
  {
    if k.KStatus? || k.KReceivedAmountAtomic? || k.KTransfers? || k.KLastScannedBlock? || k.KDetectedAt? || k.KConfirmedAt? {
      PatchedPaymentColumn(p, d, k);
    } else {
      PatchedSweepColumn(p, d, k);
    }
  }

  lemma PatchedPaymentColumn(p: PayIn, d: PayInPatch, k: Key)
    requires Given(d, k).Some?
    requires k.KStatus? || k.KReceivedAmountAtomic? || k.KTransfers? || k.KLastScannedBlock? || k.KDetectedAt? || k.KConfirmedAt?
    ensures PatchColumns(k).Some? && Cells(Patched(p, d))(PatchColumns(k).value.column) == Given(d, k).value
  {
  }

  lemma PatchedSweepColumn(p: PayIn, d: PayInPatch, k: Key)
    requires Given(d, k).Some?
    requires k.KAcceptedAt? || k.KSweepStatus? || k.KSweepTransactionHash? || k.KSweptAmountAtomic? || k.KSweptAt? || k.KSweepFailureReason?
    ensures PatchColumns(k).Some? && Cells(Patched(p, d))(PatchColumns(k).value.column) == Given(d, k).value
  {
  }

  /** The property a column is patched through. */
  function KeyOf(c: Column): Key {
    match c
    case ColStatus => KStatus
    case ColReceivedAmountAtomic => KReceivedAmountAtomic
    case ColTransfers => KTransfers
    case ColLastScannedBlock => KLastScannedBlock
    case ColDetectedAt => KDetectedAt
    case ColConfirmedAt => KConfirmedAt
    case ColAcceptedAt => KAcceptedAt
    case ColSweepStatus => KSweepStatus
    case ColSweepTxHash => KSweepTransactionHash
    case ColSweptAmountAtomic => KSweptAmountAtomic
    case ColSweptAt => KSweptAt
    case ColSweepFailureReason => KSweepFailureReason
    case _ => KTerms
  }

  lemma UnpatchedColumn(p: PayIn, d: PayInPatch, c: Column)
    requires Given(d, KeyOf(c)).None?
    ensures Cells(Patched(p, d))(c) == Cells(p)(c)
  {
  }

  lemma KeyOfColumn(d: PayInPatch, c: Column)
    requires Given(d, KeyOf(c)).Some?
    ensures PositionOf(KeyOf(c)).Some? && PositionOf(KeyOf(c)).value < 12 && KeyAt(PositionOf(KeyOf(c)).value) == KeyOf(c)
    ensures PatchColumns(KeyOf(c)).Some? && PatchColumns(KeyOf(c)).value.column == c
  {
  }

  /** Writing a patch through the whitelist and reading the row back is the typed
      record update: no other column moves, and the terms are unreachable. */
  lemma WrittenPatchIsTypedUpdate(p: PayIn, d: PayInPatch, after: Column -> Value)
    requires Supported(Entries(d), PatchColumns) && WritesExactly(Cells(p), after, Entries(d), PatchColumns)
    ensures Readable(after) && FromCells(after) == Patched(p, d)
  {
    forall c: Column
      ensures after(c) == Cells(Patched(p, d))(c)
    {
      ColumnAfterWrite(p, d, after, c);
    }
    CellsReadBack(Patched(p, d));
    SameCells(after, Cells(Patched(p, d)));
  }

  lemma PaymentCells(p: PayIn)
    ensures var c := Cells(p);
            && c(ColTerms) == VTerms(p.terms) && c(ColStatus) == VStatus(p.status) && c(ColReceivedAmountAtomic) == VNat(p.receivedAtomic)
            && c(ColTransfers) == VTransfers(p.transfers) && c(ColLastScannedBlock) == VOpt(p.lastScanned)
            && c(ColDetectedAt) == VOpt(p.detectedAt) && c(ColConfirmedAt) == VOpt(p.confirmedAt)
  {
  }

  lemma SweepCells(p: PayIn)
    ensures var c := Cells(p);
            && c(ColAcceptedAt) == VOpt(p.acceptedAt) && c(ColSweepStatus) == VSweep(p.sweepStatus) && c(ColSweepTxHash) == VOpt(p.sweepHash)
            && c(ColSweptAmountAtomic) == VNat(p.sweptAtomic) && c(ColSweptAt) == VOpt(p.sweptAt)
            && c(ColSweepFailureReason) == VText(p.sweepFailure)
  {
  }

  lemma CellsReadBack(p: PayIn)
    ensures Readable(Cells(p)) && FromCells(Cells(p)) == p
  {
    PaymentCells(p);
    SweepCells(p);
  }

  lemma SameCells(f: Column -> Value, g: Column -> Value)
    requires Readable(g) && forall c: Column :: f(c) == g(c)
    ensures Readable(f) && FromCells(f) == FromCells(g)
  {
  }

  lemma KeyOfEntry(i: nat)
    requires i < 12
    ensures PatchColumns(KeyAt(i)).Some? && KeyOf(PatchColumns(KeyAt(i)).value.column) == KeyAt(i)
  {
  }

  lemma ColumnAfterWrite(p: PayIn, d: PayInPatch, after: Column -> Value, c: Column)
    requires Supported(Entries(d), PatchColumns) && WritesExactly(Cells(p), after, Entries(d), PatchColumns)
    ensures after(c) == Cells(Patched(p, d))(c)
  {
    var e := Entries(d);
    if Given(d, KeyOf(c)).Some? {
      KeyOfColumn(d, c);
      var i := PositionOf(KeyOf(c)).value;
      assert e[i] == (KeyOf(c), Given(d, KeyOf(c)));
      PatchedColumn(p, d, KeyOf(c));
    } else {
      forall i | 0 <= i < |e| && e[i].1.Some?
        ensures PatchColumns(e[i].0).value.column != c
      {
        KeyOfEntry(i);
      }
      UnpatchedColumn(p, d, c);
    }
  }

  /** The unique index on (client_id, external_id); it does not bind NULL clients. */
  predicate Clashes(existing: PayIn, record: PayIn) {
    && record.terms.clientId.Some?
    && existing.terms.clientId == record.terms.clientId
    && existing.terms.externalId == record.terms.externalId
  }

  function ClientTag(clientId: Option<string>): string {
    if clientId.Some? then clientId.value else "global"
  }

  /** Idempotency keys are scoped per client. */
  function NamespacedKey(clientId: Option<string>, key: string): string {
    ClientTag(clientId) + ":" + key
  }

  /** What client ids, being UUIDs, satisfy. */
  predicate ValidClient(clientId: Option<string>) {
    clientId.Some? ==> ':' !in clientId.value && clientId.value != "global"
  }

  /** The scope of a stored key names its client, so clients cannot share a key. */
  lemma NamespacedKeyIsInjective(c: Option<string>, k: string, c': Option<string>, k': string)
    requires ValidClient(c) && ValidClient(c')
    ensures UpTo(NamespacedKey(c, k), ':') == ClientTag(c)
    ensures NamespacedKey(c, k) == NamespacedKey(c', k') <==> c == c' && k == k'
  {
    UpToSeparator(ClientTag(c), ':', ":" + k);
    UpToSeparator(ClientTag(c'), ':', ":" + k');
    assert ClientTag(c) + (":" + k) == NamespacedKey(c, k) && ClientTag(c') + (":" + k') == NamespacedKey(c', k');
    if NamespacedKey(c, k) == NamespacedKey(c', k') {
      var n := |ClientTag(c)| + 1;
      assert NamespacedKey(c, k)[n..] == k && NamespacedKey(c', k')[n..] == k';
    }
  }

  class Ledger {
    var rows: map<Id, PayIn>
    var keys: map<string, Id>

    constructor ()
      ensures rows == map[] && keys == map[]
    {
      rows := map[];
      keys := map[];
    }

    method CreateOrGetExisting(id: Id, record: PayIn) returns (found: Id, existed: bool)
      requires id !in rows
      modifies this`rows
      ensures existed <==> exists k :: k in old(rows) && Clashes(old(rows)[k], record)
      ensures !existed ==> found == id && rows == old(rows)[id := record]
      ensures existed ==> rows == old(rows) && found in rows && Clashes(rows[found], record)
    {
      if k :| k in rows && Clashes(rows[k], record) {
        return k, true;
      }
      rows := rows[id := record];
      return id, false;
    }

    method FindByIdempotencyKey(clientId: Option<string>, key: string) returns (r: Option<Id>)
      ensures r.Some? <==> NamespacedKey(clientId, key) in keys && keys[NamespacedKey(clientId, key)] in rows
      ensures r.Some? ==> r.value == keys[NamespacedKey(clientId, key)]
    {
      var full := NamespacedKey(clientId, key);
      if full !in keys || keys[full] !in rows {
        return None;
      }
      return Some(keys[full]);
    }

    /** INSERT ... ON CONFLICT (key) DO NOTHING: the first value stays. */
    method StoreIdempotencyKey(clientId: Option<string>, key: string, id: Id)
      modifies this`keys
      ensures var full := NamespacedKey(clientId, key);
              keys == if full in old(keys) then old(keys) else old(keys)[full := id]
    {
      var full := NamespacedKey(clientId, key);
      if full !in keys {
        keys := keys[full := id];
      }
    }

    /** The statement built by the patch builder changes one row, and that row
        exactly as the typed update says; the guard decides whether it matches. */
    method Update(id: Id, d: PayInPatch, g: Guard) returns (r: Option<PayIn>)
      modifies this`rows
      ensures r.Some? <==> id in old(rows) && Allows(g, old(rows)[id])
      ensures r.Some? ==> r.value == Patched(old(rows)[id], d) && rows == old(rows)[id := r.value]
      ensures r.None? ==> rows == old(rows)
      ensures id in old(rows) ==> rows == old(rows)[id := Updated(old(rows)[id], d, g)]
    {
      var values := new Values<Value>([Plain(VId(id))]);
      var built := BuildPatchSet(Entries(d), PatchColumns, values);
      EntriesAreWhitelisted(d);
      ghost var guards: seq<Param<Value>> := [];
      if g.expectedStatus.Some? {
        values.Push(Plain(VStatuses(g.expectedStatus.value)));
        guards := guards + [Plain(VStatuses(g.expectedStatus.value))];
      }
      if g.expectedSweepStatus.Some? {
        values.Push(Plain(VSweeps(g.expectedSweepStatus.value)));
        guards := guards + [Plain(VSweeps(g.expectedSweepStatus.value))];
      }
      if id !in rows || !Allows(g, rows[id]) {
        return None;
      }
      BuiltSetWritesExactlyThePatch(Cells(rows[id]), Entries(d), PatchColumns, [Plain(VId(id))], guards);
      assert values.params == [Plain(VId(id))] + ParamsOf(Entries(d), PatchColumns) + guards;
      var cells := ExecuteSet(Cells(rows[id]), built.sets, values.params);
      WrittenPatchIsTypedUpdate(rows[id], d, cells.value);
      var row := FromCells(cells.value);
      rows := rows[id := row];
      return Some(row);
    }
  }
}
