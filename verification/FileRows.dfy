/**
 * One stored file: its row, and what each Storage handler does to that row and to the
 * bytes behind its key. Every handler here takes the per-file lock, reloads the row
 * and decides again, so one handler body is one atomic step of one row.
 */
module FileRows {
  import opened Basics

  const TICKET: int := 15 * MINUTE
  const PREVIEW_LIMIT: int := 1024 * 1024

  /** Object keys carry their tenant as a prefix. */
  datatype Tenant = Tenant(region: Guid, org: Guid)

  datatype BlobPath = ReportPath(job: Guid, artifact: Guid) | FilePath(id: Guid)

  datatype BlobKey = BlobKey(tenant: Tenant, path: BlobPath, preview: bool)

  datatype FileStatus = PendingUpload | Uploaded | Clean | Quarantined | Erased | Deleted

  datatype FileRow = FileRow(
    key: BlobKey,
    contentType: string,
    maxBytes: int,
    status: FileStatus,
    hold: bool,
    preview: Option<BlobKey>,
    createdAt: Instant,
    deletedAt: Option<Instant>,
    sites: seq<Guid>,
    origin: Option<string>,
    originId: Option<Guid>)

  /** What the object-store adapter supports; only remote bounded tickets outlive a delete. */
  datatype StoreKind = StoreKind(bounded: bool, local: bool)
  {
    predicate LiveTickets() { bounded && !local }
  }

  datatype Op =
    | Complete(length: Option<int>)
    | Scan(clean: bool)
    | Derive
    | SetHold(hold: bool)
    | Delete
    | Restore
    | ExpirePending
    | PurgeTrash(window: int)

  /** What happens to the row's bytes. */
  datatype Effect = Keep | EraseBytes | WritePreview

  datatype Change = Change(row: FileRow, effect: Effect)

  predicate Before(t: Option<Instant>, limit: Instant) { t.Some? && t.value < limit }

  /** The statuses that count against the upload budget and that the expiry sweep collects. */
  predicate Outstanding(s: FileStatus) { s.PendingUpload? || s.Uploaded? || s.Quarantined? }

  predicate Textual(contentType: string) {
    "text/" <= contentType || contentType == "application/json" || contentType == "application/csv"
  }

  /** Where a file's bytes and its preview live. */
  function Keys(row: FileRow): set<BlobKey> {
    {row.key} + if row.preview.Some? then {row.preview.value} else {}
  }

  function Erasure(row: FileRow): Change {
    Change(row.(status := Erased, preview := None), EraseBytes)
  }

  function Unchanged(row: FileRow): Change { Change(row, Keep) }

  /** One handler applied to one row at time `now`; a refusal leaves row and bytes alone. */
  function Apply(row: FileRow, op: Op, now: Instant, store: StoreKind): Change {
    match op
    case Complete(length) =>
      if row.status != PendingUpload || length.None? || length.value == 0 then Unchanged(row)
      else if length.value > row.maxBytes then Change(row.(status := Quarantined), Keep)
      else Change(row.(status := Uploaded), Keep)
    case Scan(clean) =>
      if row.status != Uploaded then Unchanged(row)
      else Change(row.(status := if clean then Clean else Quarantined), Keep)
    case Derive =>
      if row.status != Clean || !Textual(row.contentType) || row.maxBytes > PREVIEW_LIMIT then Unchanged(row)
      else Change(row.(preview := Some(row.key.(preview := true))), WritePreview)
    case SetHold(hold) => Change(row.(hold := hold), Keep)
    case Delete =>
      if row.status.Erased? || row.status.Deleted? || row.hold then Unchanged(row)
      else if row.status != Clean && store.LiveTickets() && row.createdAt + TICKET > now then
        Change(row.(status := Quarantined, deletedAt := Some(now)), Keep)
      else if row.status != Clean then Erasure(row)
      else Change(row.(status := Deleted, deletedAt := Some(now)), Keep)
    case Restore =>
      if row.status != Deleted then Unchanged(row)
      else Change(row.(status := Clean, deletedAt := None), Keep)
    case ExpirePending =>
      if row.hold || row.createdAt >= now - HOUR || !Outstanding(row.status) then Unchanged(row)
      else Erasure(row)
    case PurgeTrash(window) =>
      if row.status != Deleted || row.hold || !Before(row.deletedAt, now - window * DAY)
         || (store.LiveTickets() && row.createdAt >= now - TICKET)
      then Unchanged(row)
      else Erasure(row)
  }

  // ---------- what every handler keeps ----------

  /** Erasure is final for every handler of a file. */
  lemma ErasedStays(row: FileRow, op: Op, now: Instant, store: StoreKind)
    requires row.status.Erased?
    ensures Apply(row, op, now, store).row.status.Erased?
    ensures Apply(row, op, now, store).effect.Keep?
  {
  }

  /** No handler erases a held file. */
  lemma HoldProtects(row: FileRow, op: Op, now: Instant, store: StoreKind)
    requires row.hold
    ensures !Apply(row, op, now, store).effect.EraseBytes?
  {
  }

  /** What a file is, where it lives and what it declared never changes, and a preview lives beside its file. */
  lemma RowKeepsIdentity(row: FileRow, op: Op, now: Instant, store: StoreKind)
    ensures var row' := Apply(row, op, now, store).row;
      && row'.key == row.key && row'.origin == row.origin && row'.originId == row.originId && row'.maxBytes == row.maxBytes
      && (row'.preview.None? || row'.preview == row.preview || row'.preview == Some(row.key.(preview := true)))
  {
  }

  /** No handler makes a file count against the budget that did not count before. */
  lemma BudgetOnlyShrinks(row: FileRow, op: Op, now: Instant, store: StoreKind)
    ensures Outstanding(Apply(row, op, now, store).row.status) ==> Outstanding(row.status)
  {
  }
}
