/**
 * The file library of one organization over whole runs: uploads are admitted within a
 * budget, every handler of a file decides under that file's lock, and the purge ends it all.
 */
module Files {
  import opened Basics
  import Admissions
  import opened FileRows
  import opened ReportTypes
  import opened ReportRules
  import opened Totals

  const MAX_UPLOAD: nat := 100 * 1024 * 1024
  const MAX_OUTSTANDING: nat := Admissions.UPLOADS.rows
  const MAX_OUTSTANDING_BYTES: nat := Admissions.UPLOADS.weight.value

  /** The rows, the keys that hold bytes, and the purge fence. */
  datatype Library = Library(rows: map<Guid, FileRow>, store: set<BlobKey>, purged: bool)

  // ---------- the upload budget ----------

  function Weight(row: FileRow): nat { if row.maxBytes < 0 then 0 else row.maxBytes }

  /** What counts against the budget, with its declared size. */
  function Budgeted(rows: map<Guid, FileRow>): map<Guid, nat> {
    map id | id in rows && Outstanding(rows[id].status) :: Weight(rows[id])
  }

  ghost predicate Admissible(rows: map<Guid, FileRow>, size: int) {
    && 1 <= size <= MAX_UPLOAD
    && |Budgeted(rows)| < MAX_OUTSTANDING
    && Total(Budgeted(rows)) + size <= MAX_OUTSTANDING_BYTES
  }

  function NewUpload(tenant: Tenant, id: Guid, contentType: string, size: int, sites: seq<Guid>, now: Instant): FileRow {
    FileRow(BlobKey(tenant, FilePath(id), false), contentType, size, PendingUpload, false, None, now, None, sites, None, None)
  }

  // ---------- the transactions ----------

  ghost function Created(lib: Library, id: Guid, row: FileRow): Library {
    if id in lib.rows || !Admissible(lib.rows, row.maxBytes) then lib else lib.(rows := lib.rows[id := row])
  }

  function StoreAfter(store: set<BlobKey>, row: FileRow, effect: Effect): set<BlobKey> {
    match effect
    case Keep => store
    case EraseBytes => store - Keys(row)
    case WritePreview => store + {row.key.(preview := true)}
  }

  /** One handler of one file. */
  function Acted(lib: Library, id: Guid, op: Op, now: Instant, kind: StoreKind): Library {
    if id !in lib.rows then lib
    else
      var change := Apply(lib.rows[id], op, now, kind);
      lib.(rows := lib.rows[id := change.row], store := StoreAfter(lib.store, lib.rows[id], change.effect))
  }

  /**
   * A handler rolled back after it worked on the bytes, on its own or with the rest of a
   * sweep: its row stays, its bytes do not come back.
   */
  function Failed(lib: Library, id: Guid, op: Op, now: Instant, kind: StoreKind): Library {
    if id !in lib.rows then lib
    else lib.(store := StoreAfter(lib.store, lib.rows[id], Apply(lib.rows[id], op, now, kind).effect))
  }

  /** The other module's publication: a row once, and never behind the purge fence. */
  function Received(lib: Library, tenant: Tenant, m: Publish): Library {
    if lib.purged || m.id in lib.rows || !ValidPublication(tenant, m) then lib
    else lib.(rows := lib.rows[m.id := PublishedRow(m)])
  }

  /** An archive made by the platform itself: born clean, under its own key, and never behind the purge fence. */
  function ArchiveRow(tenant: Tenant, id: Guid, origin: string, bytes: nat, now: Instant): FileRow {
    FileRow(BlobKey(tenant, FilePath(id), false), "application/zip", bytes, Clean, false, None, now, None, [], Some(origin), None)
  }

  function Archived(lib: Library, tenant: Tenant, id: Guid, origin: string, bytes: nat, now: Instant): Library {
    if lib.purged || id in lib.rows then lib
    else
      var row := ArchiveRow(tenant, id, origin, bytes, now);
      lib.(rows := lib.rows[id := row], store := lib.store + {row.key})
  }

  function AllKeys(rows: map<Guid, FileRow>): set<BlobKey> {
    set id, key | id in rows && key in Keys(rows[id]) :: key
  }

  function Emptied(lib: Library): Library {
    Library(map[], lib.store - AllKeys(lib.rows), true)
  }

  /** Before the purge fence a new archive is there at once: clean, of its size, with its bytes under its own key. */
  lemma ArchiveAppears(tenant: Tenant, kind: StoreKind, lib: Library, id: Guid, origin: string, bytes: nat, at: Instant)
    requires !lib.purged && id !in lib.rows
    ensures var lib', key := Next(tenant, kind, lib, Action.Archive(id, origin, bytes, at)), BlobKey(tenant, FilePath(id), false);
      && lib'.rows.Keys == lib.rows.Keys + {id} && lib'.store == lib.store + {key}
      && lib'.rows[id].status.Clean? && lib'.rows[id].key == key && lib'.rows[id].maxBytes == bytes
      && lib'.rows[id].origin == Some(origin) && lib'.rows[id].createdAt == at && lib'.rows[id].contentType == "application/zip"
  {
  }

  // ---------- runs ----------

  datatype Action =
    | Create(file: Guid, contentType: string, size: int, sites: seq<Guid>, at: Instant)
    | Upload(file: Guid)
    | Act(file: Guid, op: Op, at: Instant)
    | Fail(file: Guid, op: Op, at: Instant)
    | Receive(message: Publish)
    | Archive(file: Guid, origin: string, bytes: nat, at: Instant)
    | PurgeOrg

  ghost function Next(tenant: Tenant, kind: StoreKind, lib: Library, a: Action): Library {
    match a
    case Create(id, contentType, size, sites, at) => Created(lib, id, NewUpload(tenant, id, contentType, size, sites, at))
    case Upload(id) => if id in lib.rows then lib.(store := lib.store + {lib.rows[id].key}) else lib
    case Act(id, op, at) => Acted(lib, id, op, at, kind)
    case Fail(id, op, at) => Failed(lib, id, op, at, kind)
    case Receive(m) => Received(lib, tenant, m)
    case Archive(id, origin, bytes, at) => Archived(lib, tenant, id, origin, bytes, at)
    case PurgeOrg => Emptied(lib)
  }

  ghost function Run(tenant: Tenant, kind: StoreKind, lib: Library, actions: seq<Action>): Library
    decreases |actions|
  {
    if actions == [] then lib
    else Next(tenant, kind, Run(tenant, kind, lib, actions[..|actions| - 1]), actions[|actions| - 1])
  }

  const EMPTY := Library(map[], {}, false)

  // ---------- the budget holds ----------

  ghost predicate WithinBudget(rows: map<Guid, FileRow>) {
    |Budgeted(rows)| <= MAX_OUTSTANDING && Total(Budgeted(rows)) <= MAX_OUTSTANDING_BYTES
  }

  lemma FewerBudgeted(rows: map<Guid, FileRow>, id: Guid, row: FileRow)
    requires id in rows && row.maxBytes == rows[id].maxBytes && (Outstanding(row.status) ==> Outstanding(rows[id].status))
    requires WithinBudget(rows)
    ensures WithinBudget(rows[id := row])
  {
    var before, after := Budgeted(rows), Budgeted(rows[id := row]);
    if id in before && id !in after {
      assert after == before - {id};
      TotalMinus(before, id);
      assert before == after[id := before[id]];
    } else {
      assert after == before;
    }
  }

  lemma CreatedBudgeted(rows: map<Guid, FileRow>, id: Guid, row: FileRow)
    requires id !in rows && row.status.PendingUpload? && Admissible(rows, row.maxBytes)
    ensures WithinBudget(rows[id := row])
  {
    assert Budgeted(rows[id := row]) == Budgeted(rows)[id := Weight(row)];
    TotalPlus(Budgeted(rows), id, Weight(row));
  }

  lemma ReceivedBudgeted(rows: map<Guid, FileRow>, id: Guid, row: FileRow)
    requires id !in rows && row.status.Clean? && WithinBudget(rows)
    ensures WithinBudget(rows[id := row])
  {
    assert Budgeted(rows[id := row]) == Budgeted(rows);
  }

  lemma NoneBudgeted()
    ensures WithinBudget(map[])
  {
    assert Budgeted(map[]) == map[];
  }

  lemma NextWithinBudget(tenant: Tenant, kind: StoreKind, lib: Library, a: Action)
    requires WithinBudget(lib.rows)
    ensures WithinBudget(Next(tenant, kind, lib, a).rows)
  {
    hide WithinBudget, Admissible, Budgeted, Apply, ValidPublication;
    match a {
      case Create(id, contentType, size, sites, at) =>
        var row := NewUpload(tenant, id, contentType, size, sites, at);
        if id !in lib.rows && Admissible(lib.rows, row.maxBytes) { CreatedBudgeted(lib.rows, id, row); }
      case Act(id, op, at) =>
        if id in lib.rows {
          RowKeepsIdentity(lib.rows[id], op, at, kind);
          BudgetOnlyShrinks(lib.rows[id], op, at, kind);
          FewerBudgeted(lib.rows, id, Apply(lib.rows[id], op, at, kind).row);
        }
      case Receive(m) =>
        if !lib.purged && m.id !in lib.rows && ValidPublication(tenant, m) { ReceivedBudgeted(lib.rows, m.id, PublishedRow(m)); }
      case Archive(id, origin, bytes, at) =>
        if !lib.purged && id !in lib.rows { ReceivedBudgeted(lib.rows, id, ArchiveRow(tenant, id, origin, bytes, at)); }
      case PurgeOrg => NoneBudgeted();
      case _ =>
    }
  }

  /** Pending, uploaded and quarantined files never exceed 20 files or 500 MiB declared. */
  lemma BudgetHolds(tenant: Tenant, kind: StoreKind, actions: seq<Action>)
    ensures var rows := Run(tenant, kind, EMPTY, actions).rows;
      var open := set id | id in rows && (rows[id].status.PendingUpload? || rows[id].status.Uploaded? || rows[id].status.Quarantined?);
      && |open| <= 20
      && Total(map id | id in open :: if rows[id].maxBytes < 0 then 0 else rows[id].maxBytes) <= 500 * 1024 * 1024
  {
    RunWithinBudget(tenant, kind, actions);
    hide Run;
    var rows := Run(tenant, kind, EMPTY, actions).rows;
    var open := set id | id in rows && (rows[id].status.PendingUpload? || rows[id].status.Uploaded? || rows[id].status.Quarantined?);
    assert forall id :: id in open <==> id in Budgeted(rows);
    assert open == Budgeted(rows).Keys && |Budgeted(rows).Keys| == |Budgeted(rows)|;
    var weights: map<Guid, nat> := map id | id in open :: if rows[id].maxBytes < 0 then 0 else rows[id].maxBytes;
    var budgeted := Budgeted(rows);
    assert forall id :: id in weights <==> id in budgeted;
    assert forall id | id in weights :: weights[id] == budgeted[id];
    assert weights == budgeted;
  }

  lemma {:induction false} RunWithinBudget(tenant: Tenant, kind: StoreKind, actions: seq<Action>)
    ensures WithinBudget(Run(tenant, kind, EMPTY, actions).rows)
    decreases |actions|
  {
    hide WithinBudget, Next;
    if actions == [] {
      NoneBudgeted();
    } else {
      var before := actions[..|actions| - 1];
      RunWithinBudget(tenant, kind, before);
      NextWithinBudget(tenant, kind, Run(tenant, kind, EMPTY, before), actions[|actions| - 1]);
    }
  }

  // ---------- erasure is final, holds protect ----------

  /** Until the organization is purged a row never goes, its key never changes, and an erased file stays erased. */
  lemma {:induction false} ErasureIsFinal(tenant: Tenant, kind: StoreKind, lib: Library, actions: seq<Action>, id: Guid)
    requires id in lib.rows && forall i | 0 <= i < |actions| :: !actions[i].PurgeOrg?
    ensures var lib' := Run(tenant, kind, lib, actions);
      && id in lib'.rows && lib'.rows[id].key == lib.rows[id].key
      && (lib.rows[id].status.Erased? ==> lib'.rows[id].status.Erased?)
    decreases |actions|
  {
    hide Apply, ValidPublication, PublishedRow, Admissible;
    if actions != [] {
      var before := actions[..|actions| - 1];
      ErasureIsFinal(tenant, kind, lib, before, id);
      var mid, a := Run(tenant, kind, lib, before), actions[|actions| - 1];
      assert !a.PurgeOrg?;
      if a.Act? && a.file in mid.rows {
        RowKeepsIdentity(mid.rows[a.file], a.op, a.at, kind);
        if mid.rows[a.file].status.Erased? { ErasedStays(mid.rows[a.file], a.op, a.at, kind); }
      }
    }
  }

  /** A clean verdict was given on the file at some point. */
  predicate Scanned(actions: seq<Action>, id: Guid) {
    exists k | 0 <= k < |actions| :: actions[k].Act? && actions[k].file == id && actions[k].op == Scan(true)
  }

  lemma ScannedOn(actions: seq<Action>, a: Action, id: Guid)
    ensures Scanned(actions + [a], id) <==> Scanned(actions, id) || (a.Act? && a.file == id && a.op == Scan(true))
  {
    var more := actions + [a];
    if Scanned(actions, id) {
      var k :| 0 <= k < |actions| && actions[k].Act? && actions[k].file == id && actions[k].op == Scan(true);
      assert more[k] == actions[k];
    }
    assert more[|actions|] == a;
  }

  /** Downloadable, or in the trash and restorable. */
  predicate Readable(row: FileRow) { row.status.Clean? || row.status.Deleted? }

  predicate ReadableUpload(rows: map<Guid, FileRow>, id: Guid) {
    id in rows && rows[id].origin.None? && Readable(rows[id])
  }

  lemma ScanStep(tenant: Tenant, kind: StoreKind, lib: Library, a: Action, id: Guid)
    requires ReadableUpload(Next(tenant, kind, lib, a).rows, id)
    ensures ReadableUpload(lib.rows, id) || (a.Act? && a.file == id && a.op == Scan(true))
  {
    hide ValidPublication, Admissible;
  }

  /** An upload is downloadable, or restorable, only after a clean scan: until the verdict it is quarantined. */
  lemma {:induction false} CleanMeansScanned(tenant: Tenant, kind: StoreKind, actions: seq<Action>, id: Guid)
    requires ReadableUpload(Run(tenant, kind, EMPTY, actions).rows, id)
    ensures Scanned(actions, id)
    decreases |actions|
  {
    if actions != [] {
      var before, a := actions[..|actions| - 1], actions[|actions| - 1];
      var mid := Run(tenant, kind, EMPTY, before);
      assert actions == before + [a];
      hide Next, ReadableUpload;
      ScanStep(tenant, kind, mid, a, id);
      ScannedOn(before, a, id);
      if ReadableUpload(mid.rows, id) { CleanMeansScanned(tenant, kind, before, id); }
    }
  }

  /** The file a key belongs to. */
  function Owner(key: BlobKey): Guid {
    match key.path
    case ReportPath(_, artifact) => artifact
    case FilePath(id) => id
  }

  /** Publications announce their artifact's own key. */
  predicate Proper(a: Action) { a.Receive? ==> Owner(a.message.key) == a.message.id && !a.message.key.preview }

  /** Every file's bytes live under its own keys. */
  ghost predicate OwnKeys(rows: map<Guid, FileRow>) {
    forall id | id in rows ::
      && Owner(rows[id].key) == id && !rows[id].key.preview
      && (rows[id].preview.Some? ==> rows[id].preview.value == rows[id].key.(preview := true))
  }

  lemma NextOwnKeys(tenant: Tenant, kind: StoreKind, lib: Library, a: Action)
    requires OwnKeys(lib.rows) && Proper(a)
    ensures OwnKeys(Next(tenant, kind, lib, a).rows)
  {
    if a.Act? && a.file in lib.rows { RowKeepsIdentity(lib.rows[a.file], a.op, a.at, kind); }
    hide Apply, ValidPublication, Admissible;
  }

  lemma {:induction false} OwnKeysStay(tenant: Tenant, kind: StoreKind, lib: Library, actions: seq<Action>)
    requires OwnKeys(lib.rows) && forall i | 0 <= i < |actions| :: Proper(actions[i])
    ensures OwnKeys(Run(tenant, kind, lib, actions).rows)
    decreases |actions|
  {
    hide OwnKeys, Next;
    if actions != [] {
      var before := actions[..|actions| - 1];
      OwnKeysStay(tenant, kind, lib, before);
      NextOwnKeys(tenant, kind, Run(tenant, kind, lib, before), actions[|actions| - 1]);
    }
  }

  lemma RunOwnKeys(tenant: Tenant, kind: StoreKind, actions: seq<Action>)
    requires forall i | 0 <= i < |actions| :: Proper(actions[i])
    ensures OwnKeys(Run(tenant, kind, EMPTY, actions).rows)
  {
    NoKeys();
    OwnKeysStay(tenant, kind, EMPTY, actions);
  }

  lemma NoKeys()
    ensures OwnKeys(map[])
  {
  }

  /** In any reachable library, no step but the organization's purge deletes the bytes of a file under legal hold. */
  lemma HoldKeepsBytes(tenant: Tenant, kind: StoreKind, actions: seq<Action>, a: Action, id: Guid)
    requires forall i | 0 <= i < |actions| :: Proper(actions[i])
    requires var lib := Run(tenant, kind, EMPTY, actions); id in lib.rows && lib.rows[id].hold
    requires !a.PurgeOrg?
    ensures var lib := Run(tenant, kind, EMPTY, actions);
      lib.store * Keys(lib.rows[id]) <= Next(tenant, kind, lib, a).store
  {
    RunOwnKeys(tenant, kind, actions);
    var lib := Run(tenant, kind, EMPTY, actions);
    hide Run, Apply;
    if (a.Act? || a.Fail?) && a.file in lib.rows {
      if a.file == id { HoldProtects(lib.rows[id], a.op, a.at, kind); }
      forall key | key in Keys(lib.rows[id]) && key in Keys(lib.rows[a.file]) ensures a.file == id {
        assert Owner(key) == id && Owner(key) == a.file;
      }
    }
  }

  // ---------- a restorable file and its bytes ----------

  /** A handler deletes the bytes of file `id` and is then rolled back. */
  ghost predicate TearsOff(kind: StoreKind, lib: Library, a: Action, id: Guid) {
    a.Fail? && a.file == id && id in lib.rows && Apply(lib.rows[id], a.op, a.at, kind).effect.EraseBytes?
  }

  lemma OpKeepsReadable(row: FileRow, op: Op, now: Instant, kind: StoreKind)
    requires Readable(row) || row.status.Erased?
    ensures var change := Apply(row, op, now, kind);
      && (Readable(change.row) || change.row.status.Erased?) && (Readable(change.row) ==> Readable(row) && !change.effect.EraseBytes?)
  {
  }

  lemma OthersBytes(store: set<BlobKey>, rows: map<Guid, FileRow>, id: Guid, other: Guid, effect: Effect)
    requires OwnKeys(rows) && id in rows && other in rows && (other != id || !effect.EraseBytes?)
    ensures rows[id].key in StoreAfter(store, rows[other], effect) <==> rows[id].key in store
  {
    if effect.EraseBytes? {
      forall key | key in Keys(rows[other]) ensures key != rows[id].key {
        assert Owner(key) == other;
      }
    }
  }

  lemma BytesStep(tenant: Tenant, kind: StoreKind, lib: Library, a: Action, id: Guid)
    requires OwnKeys(lib.rows) && id in lib.rows && !a.PurgeOrg?
    requires Readable(lib.rows[id]) || lib.rows[id].status.Erased?
    ensures var lib' := Next(tenant, kind, lib, a);
      && id in lib'.rows && lib'.rows[id].key == lib.rows[id].key
      && (Readable(lib'.rows[id]) || lib'.rows[id].status.Erased?)
      && (Readable(lib'.rows[id]) ==>
            && Readable(lib.rows[id])
            && (lib.rows[id].key in lib'.store <==>
                  (lib.rows[id].key in lib.store || (a.Upload? && a.file == id)) && !TearsOff(kind, lib, a, id)))
  {
    hide Apply, ValidPublication, PublishedRow, Admissible, OwnKeys;
    if (a.Act? || a.Fail?) && a.file in lib.rows {
      var row := lib.rows[a.file];
      var change := Apply(row, a.op, a.at, kind);
      RowKeepsIdentity(row, a.op, a.at, kind);
      if a.file == id { OpKeepsReadable(row, a.op, a.at, kind); }
      if a.file != id || !change.effect.EraseBytes? { OthersBytes(lib.store, lib.rows, id, a.file, change.effect); }
    }
    KeysApart(lib.rows, id);
    if a.Archive? && !lib.purged && a.file !in lib.rows { ArchivedApart(lib.rows, tenant, id, a.file); }
  }

  lemma KeysApart(rows: map<Guid, FileRow>, id: Guid)
    requires OwnKeys(rows) && id in rows
    ensures forall other | other in rows && other != id :: rows[other].key != rows[id].key
  {
  }

  lemma ArchivedApart(rows: map<Guid, FileRow>, tenant: Tenant, id: Guid, other: Guid)
    requires OwnKeys(rows) && id in rows && other !in rows
    ensures rows[id].key != BlobKey(tenant, FilePath(other), false)
  {
  }

  /** The bytes were torn off in some step, and were not uploaded again since. */
  ghost predicate Torn(tenant: Tenant, kind: StoreKind, lib: Library, actions: seq<Action>, id: Guid) {
    exists k: nat :: TornAt(tenant, kind, lib, actions, id, k)
  }

  ghost predicate TornAt(tenant: Tenant, kind: StoreKind, lib: Library, actions: seq<Action>, id: Guid, k: nat) {
    && k < |actions| && TearsOff(kind, Run(tenant, kind, lib, actions[..k]), actions[k], id)
    && forall l | k < l < |actions| :: !(actions[l].Upload? && actions[l].file == id)
  }

  lemma TornOn(tenant: Tenant, kind: StoreKind, lib: Library, actions: seq<Action>, a: Action, id: Guid)
    ensures Torn(tenant, kind, lib, actions + [a], id)
       <==> TearsOff(kind, Run(tenant, kind, lib, actions), a, id)
            || (Torn(tenant, kind, lib, actions, id) && !(a.Upload? && a.file == id))
  {
    var more, n := actions + [a], |actions|;
    hide TearsOff, Run;
    assert more[..n] == actions && more[n] == a;
    if Torn(tenant, kind, lib, more, id) {
      var k: nat :| TornAt(tenant, kind, lib, more, id, k);
      if k < n {
        assert more[..k] == actions[..k] && more[k] == actions[k];
        forall l | k < l < n ensures !(actions[l].Upload? && actions[l].file == id) { assert more[l] == actions[l]; }
        assert TornAt(tenant, kind, lib, actions, id, k);
      }
    }
    if TearsOff(kind, Run(tenant, kind, lib, actions), a, id) {
      assert TornAt(tenant, kind, lib, more, id, n);
    }
    if Torn(tenant, kind, lib, actions, id) && !(a.Upload? && a.file == id) {
      var k: nat :| TornAt(tenant, kind, lib, actions, id, k);
      assert more[..k] == actions[..k] && more[k] == actions[k];
      assert TornAt(tenant, kind, lib, more, id, k);
    }
  }

  lemma {:induction false} BytesStay(tenant: Tenant, kind: StoreKind, lib: Library, actions: seq<Action>, id: Guid)
    requires OwnKeys(lib.rows) && forall i | 0 <= i < |actions| :: Proper(actions[i]) && !actions[i].PurgeOrg?
    requires id in lib.rows && Readable(lib.rows[id]) && lib.rows[id].key in lib.store
    ensures var lib' := Run(tenant, kind, lib, actions);
      && id in lib'.rows && lib'.rows[id].key == lib.rows[id].key
      && (Readable(lib'.rows[id]) || lib'.rows[id].status.Erased?)
      && (Readable(lib'.rows[id]) ==> (lib'.rows[id].key in lib'.store <==> !Torn(tenant, kind, lib, actions, id)))
    decreases |actions|
  {
    if actions != [] {
      var before, a := actions[..|actions| - 1], actions[|actions| - 1];
      assert actions == before + [a];
      hide Next, OwnKeys, Torn, TearsOff, Readable;
      BytesStay(tenant, kind, lib, before, id);
      OwnKeysStay(tenant, kind, lib, before);
      BytesStep(tenant, kind, Run(tenant, kind, lib, before), a, id);
      TornOn(tenant, kind, lib, before, a, id);
      assert !a.PurgeOrg?;
    }
  }

  /**
   * Once a file that can be downloaded or restored has its bytes, it keeps them as long as
   * it can be, over any run without the purge, exactly if no sweep that had deleted them
   * was rolled back since, or they were uploaded again after it.
   */
  lemma RestorableHasBytes(tenant: Tenant, kind: StoreKind, before: seq<Action>, actions: seq<Action>, id: Guid)
    requires forall i | 0 <= i < |before| :: Proper(before[i])
    requires forall i | 0 <= i < |actions| :: Proper(actions[i]) && !actions[i].PurgeOrg?
    requires var lib := Run(tenant, kind, EMPTY, before);
      id in lib.rows && Readable(lib.rows[id]) && lib.rows[id].key in lib.store
    ensures var lib := Run(tenant, kind, EMPTY, before);
      var lib' := Run(tenant, kind, lib, actions);
      id in lib'.rows && (Readable(lib'.rows[id]) ==> (lib'.rows[id].key in lib'.store <==> !Torn(tenant, kind, lib, actions, id)))
  {
    RunOwnKeys(tenant, kind, before);
    BytesStay(tenant, kind, Run(tenant, kind, EMPTY, before), actions, id);
  }

  lemma Then(tenant: Tenant, kind: StoreKind, actions: seq<Action>, a: Action)
    ensures Run(tenant, kind, EMPTY, actions + [a]) == Next(tenant, kind, Run(tenant, kind, EMPTY, actions), a)
  {
    assert (actions + [a])[..|actions|] == actions;
  }

  lemma UploadedOne(tenant: Tenant, kind: StoreKind) returns (actions: seq<Action>)
    ensures var row := NewUpload(tenant, 1, "image/png", 10, [], 0);
      Run(tenant, kind, EMPTY, actions) == Library(map[1 := row], {row.key}, false)
  {
    actions := [];
    assert Run(tenant, kind, EMPTY, actions) == EMPTY;
    assert Admissible(map[], 10) by { assert Budgeted(map[]) == map[]; }
    Then(tenant, kind, actions, Create(1, "image/png", 10, [], 0));
    actions := actions + [Create(1, "image/png", 10, [], 0)];
    hide Run, Admissible;
    Then(tenant, kind, actions, Upload(1));
    actions := actions + [Upload(1)];
  }

  /** File 1 is uploaded, scanned clean and trashed. */
  lemma Trashed(tenant: Tenant, kind: StoreKind) returns (actions: seq<Action>)
    ensures var row := NewUpload(tenant, 1, "image/png", 10, [], 0);
      Run(tenant, kind, EMPTY, actions) == Library(map[1 := row.(status := Deleted, deletedAt := Some(0))], {row.key}, false)
  {
    hide Run;
    var row := NewUpload(tenant, 1, "image/png", 10, [], 0);
    actions := UploadedOne(tenant, kind);
    Then(tenant, kind, actions, Act(1, Complete(Some(10)), 0));
    actions := actions + [Act(1, Complete(Some(10)), 0)];
    assert Run(tenant, kind, EMPTY, actions) == Library(map[1 := row.(status := Uploaded)], {row.key}, false);
    Then(tenant, kind, actions, Act(1, Scan(true), 0));
    actions := actions + [Act(1, Scan(true), 0)];
    assert Run(tenant, kind, EMPTY, actions) == Library(map[1 := row.(status := Clean)], {row.key}, false);
    Then(tenant, kind, actions, Act(1, Delete, 0));
    actions := actions + [Act(1, Delete, 0)];
  }

  /** A trash sweep that deletes the bytes and is rolled back lets the file be restored without them. */
  lemma RestoredWithoutBytes(tenant: Tenant, kind: StoreKind)
    ensures exists actions ::
              var lib := Run(tenant, kind, EMPTY, actions);
              1 in lib.rows && lib.rows[1].status.Clean? && lib.rows[1].key !in lib.store
  {
    var actions := Trashed(tenant, kind);
    hide Run;
    var row := NewUpload(tenant, 1, "image/png", 10, [], 0).(status := Deleted, deletedAt := Some(0));
    Then(tenant, kind, actions, Fail(1, PurgeTrash(30), 31 * DAY));
    actions := actions + [Fail(1, PurgeTrash(30), 31 * DAY)];
    assert Run(tenant, kind, EMPTY, actions) == Library(map[1 := row], {}, false);
    Then(tenant, kind, actions, Act(1, Restore, 31 * DAY));
    actions := actions + [Act(1, Restore, 31 * DAY)];
    assert 1 in Run(tenant, kind, EMPTY, actions).rows;
  }

  /** Behind the purge fence no publication and no archive is accepted. */
  lemma {:induction false} FenceHolds(tenant: Tenant, kind: StoreKind, lib: Library, actions: seq<Action>, a: Action)
    requires lib.purged && (a.Receive? || a.Archive?)
    ensures Run(tenant, kind, lib, actions).purged
    ensures Next(tenant, kind, Run(tenant, kind, lib, actions), a) == Run(tenant, kind, lib, actions)
    decreases |actions|
  {
    hide Apply;
    if actions != [] { FenceHolds(tenant, kind, lib, actions[..|actions| - 1], a); }
  }
}
