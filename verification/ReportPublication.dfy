/** The purges and everything Storage does with published PDFs keep the invariant. */
module ReportPublication {
  import opened Basics
  import opened FileRows
  import opened ReportTypes
  import opened ReportRules
  import opened ReportWorld
  import opened ReportInvariant
  import opened ReportFrames
  import opened ReportWorkers
  import opened ReportCommands

  // ---------- the reporting purge ----------

  function PurgedJobs(jobs: map<Guid, Job>, now: Instant): map<Guid, Job> {
    map j | j in jobs :: Purged(jobs[j], now)
  }

  lemma PurgedFits(clock: Instant, p: Job, now: Instant)
    requires JobFits(p) && clock <= now
    ensures var q := Purged(p, now);
      && SameOutput(p, q) && JobFits(q) && SweepSafe(clock, p, now, q) && OffersBundle(now, q) && Outdated(q)
      && LedgerOf(map[], 0, q) && Gone(q, now)
      && (forall a, i :: ReadyPdf(p, a, i) <==> ReadyPdf(q, a, i))
  {
    var q := Purged(p, now);
    SameOutputFits(p, q);
    assert forall a, i :: ReadyPdf(p, a, i) <==> ReadyPdf(q, a, i);
  }

  lemma PurgeTables(c: Config, w: World, at: Instant)
    requires Inv(c, w) && w.clock <= at
    ensures var jobs' := PurgedJobs(w.jobs, at);
      && JobsFit(jobs') && HomesFit(jobs', w.past) && LedgerFits(jobs', map[], w.past.itemHome)
      && OffersFit(at, jobs') && AcksFit(jobs', w.acks, w.files, w.filesPurged)
  {
    hide WorkersFit, SweepsFit, OutboxFits, FilesFit, LedgerFits, SuccessesFit, BundlesFit, BytesFit;
    var jobs' := PurgedJobs(w.jobs, at);
    forall j | j in jobs'
      ensures JobFits(jobs'[j]) && HomeOf(j, jobs'[j], w.past) && LedgerOf(map[], j, jobs'[j])
           && OffersBundle(at, jobs'[j]) && FlagsOf(jobs'[j], w.files, w.filesPurged)
    {
      AtJob(c, w, j);
      PurgedFits(w.clock, w.jobs[j], at);
    }
    assert LedgerFits(jobs', map[], w.past.itemHome) by { PurgeLedger(jobs', w.past.itemHome); }
  }

  lemma PurgeLedger(jobs: map<Guid, Job>, home: map<Guid, Guid>)
    requires forall j | j in jobs :: LedgerOf(map[], j, jobs[j])
    ensures LedgerFits(jobs, map[], home)
  {
  }

  lemma PurgeOutput(c: Config, w: World, at: Instant)
    requires Inv(c, w) && w.clock <= at
    ensures var jobs' := PurgedJobs(w.jobs, at);
      && SuccessesFit(jobs', w.past) && BundlesFit(jobs', w.past)
      && BytesFit(c, jobs', w.store, w.files, w.filesPurged)
  {
    hide WorkersFit, SweepsFit, OutboxFits, FilesFit, LedgerFits, AcksFit, OffersFit;
    var jobs' := PurgedJobs(w.jobs, at);
    forall j | j in jobs'
      ensures BundleOf(j, jobs'[j], w.past.bundles) && BytesOf(c, j, jobs'[j], w.store, w.files, w.filesPurged)
    {
      AtJob(c, w, j);
      PurgedFits(w.clock, w.jobs[j], at);
      assert BundleOf(j, w.jobs[j], w.past.bundles) && BytesOf(c, j, w.jobs[j], w.store, w.files, w.filesPurged);
    }
  }

  lemma PurgeBystanders(c: Config, w: World, at: Instant)
    requires Inv(c, w) && w.clock <= at
    ensures var jobs' := PurgedJobs(w.jobs, at);
      && WorkersFit(c, jobs', w.workers, w.store, w.past) && SweepsFit(at, jobs', w.sweeps, w.past)
      && OutboxFits(c, jobs', w.past.artifacts, w.outbox) && FilesFit(c, jobs', w.past.artifacts, w.files)
  {
    hide HomesFit, LedgerFits, SuccessesFit, BundlesFit, OffersFit, BytesFit, AcksFit, PhaseFits, ItemsFit, PdfsFit;
    var jobs' := PurgedJobs(w.jobs, at);
    forall k | k in w.workers ensures WorkerFits(c, jobs', k, w.workers[k], w.store, w.past) {
      assert WorkerFits(c, w.jobs, k, w.workers[k], w.store, w.past);
    }
    forall s | s in w.sweeps ensures SweepFits(at, jobs', w.sweeps[s], w.past) {
      assert SweepFits(w.clock, w.jobs, w.sweeps[s], w.past);
      if w.sweeps[s].job in w.jobs { assert JobFits(w.jobs[w.sweeps[s].job]); }
    }
    forall m | m in w.outbox ensures MessageFits(c, jobs', w.past.artifacts, m) {
      assert MessageFits(c, w.jobs, w.past.artifacts, m);
    }
    forall id | id in w.files ensures RowFits(c, jobs', w.past.artifacts, id, w.files[id]) {
      assert RowFits(c, w.jobs, w.past.artifacts, id, w.files[id]);
    }
  }

  lemma PurgeReportsKeeps(c: Config, w: World, at: Instant)
    requires Inv(c, w) && w.clock <= at
    ensures Inv(c, ApplyPurgeReports(w, at))
  {
    hide JobsFit, HomesFit, LedgerFits, SuccessesFit, BundlesFit, OffersFit, WorkersFit, SweepsFit, BytesFit, OutboxFits,
      FilesFit, AcksFit;
    PurgeTables(c, w, at);
    PurgeOutput(c, w, at);
    PurgeBystanders(c, w, at);
  }

  // ---------- publication ----------

  lemma PublishedRowFits(c: Config, w: World, m: Publish)
    requires Inv(c, w) && m in w.outbox
    ensures ValidPublication(c.tenant, m) && RowFits(c, w.jobs, w.past.artifacts, m.id, PublishedRow(m))
  {
    hide JobsFit, HomesFit, LedgerFits, SuccessesFit, BundlesFit, OffersFit, WorkersFit, SweepsFit, BytesFit, FilesFit, AcksFit,
      Announced;
    assert MessageFits(c, w.jobs, w.past.artifacts, m);
  }

  lemma MoreFilesBytes(c: Config, jobs: map<Guid, Job>, store: map<BlobKey, Blob>, files: map<Guid, FileRow>, purged: bool,
                       id: Guid, row: FileRow)
    requires BytesFit(c, jobs, store, files, purged) && id !in files
    ensures BytesFit(c, jobs, store, files[id := row], purged)
  {
    forall j | j in jobs ensures BytesOf(c, j, jobs[j], store, files[id := row], purged) {
      assert BytesOf(c, j, jobs[j], store, files, purged);
    }
  }

  lemma DeliverPublishKeeps(c: Config, w: World, m: Publish)
    requires Inv(c, w)
    ensures Inv(c, ApplyDeliverPublish(c, w, m))
  {
    if m in w.outbox && !w.filesPurged {
      PublishedRowFits(c, w, m);
      Tables(c, w);
      if m.id !in w.files {
        MoreFilesBytes(c, w.jobs, w.store, w.files, w.filesPurged, m.id, PublishedRow(m));
      }
      var w' := ApplyDeliverPublish(c, w, m);
      assert AcksFit(w'.jobs, w'.acks, w'.files, w'.filesPurged) && FilesFit(c, w'.jobs, w'.past.artifacts, w'.files) by {
        hide BytesFit, RowFits;
      }
      hide JobsFit, HomesFit, LedgerFits, SuccessesFit, BundlesFit, OffersFit, WorkersFit, SweepsFit, BytesFit, OutboxFits,
        FilesFit, AcksFit;
    }
  }

  // ---------- acknowledgement ----------

  function AckedJobs(jobs: map<Guid, Job>, id: Guid): map<Guid, Job> {
    map j | j in jobs :: Acknowledged(jobs[j], id)
  }

  lemma AckedFits(clock: Instant, p: Job, id: Guid)
    requires JobFits(p)
    ensures var q := Acknowledged(p, id);
      && JobFits(q) && SameView(p, q) && SweepSafe(clock, p, clock, q) && (OffersBundle(clock, p) ==> OffersBundle(clock, q))
      && (forall a, i :: ReadyPdf(p, a, i) <==> ReadyPdf(q, a, i)) && (forall a, r :: ReadyZip(p, a, r) <==> ReadyZip(q, a, r))
      && q.artifacts.Keys == p.artifacts.Keys && q.state == p.state && q.owner == p.owner
      && (forall a | a in p.artifacts :: q.artifacts[a].ready == p.artifacts[a].ready && q.artifacts[a].item == p.artifacts[a].item)
  {
    var q := Acknowledged(p, id);
    assert forall a | a in q.artifacts :: Unflagged(q.artifacts[a]) == Unflagged(p.artifacts[a])
                                          && q.artifacts[a].item == p.artifacts[a].item
                                          && q.artifacts[a].ready == p.artifacts[a].ready
                                          && q.artifacts[a].revision == p.artifacts[a].revision
                                          && q.artifacts[a].bytes == p.artifacts[a].bytes;
    assert forall a, i :: ReadyPdf(p, a, i) <==> ReadyPdf(q, a, i);
    assert forall a, r :: ReadyZip(p, a, r) <==> ReadyZip(q, a, r);
    SameBundles(p.artifacts, q.artifacts, p.revision);
  }

  lemma AckedRow(c: Config, clock: Instant, j: Guid, p: Job, id: Guid, past: History, files: map<Guid, FileRow>, purged: bool)
    requires JobFits(p) && HomeOf(j, p, past) && OffersBundle(clock, p) && FlagsOf(p, files, purged) && (id in files || purged)
    ensures var q := Acknowledged(p, id);
      JobFits(q) && HomeOf(j, q, past) && OffersBundle(clock, q) && FlagsOf(q, files, purged)
  {
    AckedFits(clock, p, id);
  }

  lemma AckTables(c: Config, w: World, id: Guid)
    requires Inv(c, w) && id in w.acks
    ensures var jobs' := AckedJobs(w.jobs, id);
      && JobsFit(jobs') && HomesFit(jobs', w.past) && OffersFit(w.clock, jobs')
      && AcksFit(jobs', w.acks, w.files, w.filesPurged)
  {
    hide WorkersFit, SweepsFit, OutboxFits, FilesFit, LedgerFits, SuccessesFit, BundlesFit, BytesFit, JobFits, HomeOf,
      OffersBundle, FlagsOf;
    var jobs' := AckedJobs(w.jobs, id);
    forall j | j in jobs'
      ensures JobFits(jobs'[j]) && HomeOf(j, jobs'[j], w.past) && OffersBundle(w.clock, jobs'[j])
           && FlagsOf(jobs'[j], w.files, w.filesPurged)
    {
      AckedRow(c, w.clock, j, w.jobs[j], id, w.past, w.files, w.filesPurged);
    }
  }

  lemma AckLedger(jobs: map<Guid, Job>, ledger: map<Guid, Entry>, home: map<Guid, Guid>, id: Guid)
    requires LedgerFits(jobs, ledger, home)
    ensures LedgerFits(AckedJobs(jobs, id), ledger, home)
  {
    forall j | j in jobs ensures LedgerOf(ledger, j, Acknowledged(jobs[j], id)) {
      assert LedgerOf(ledger, j, jobs[j]);
    }
    forall e | e in ledger ensures EntryFits(e, ledger[e], AckedJobs(jobs, id), home) {
      assert EntryFits(e, ledger[e], jobs, home);
    }
  }

  lemma AckedOutput(c: Config, j: Guid, p: Job, id: Guid, bundles: set<Bundle>, store: map<BlobKey, Blob>,
                    files: map<Guid, FileRow>, purged: bool)
    requires JobFits(p) && BundleOf(j, p, bundles) && BytesOf(c, j, p, store, files, purged)
    ensures BundleOf(j, Acknowledged(p, id), bundles) && BytesOf(c, j, Acknowledged(p, id), store, files, purged)
  {
    AckedFits(0, p, id);
    hide JobFits, SameView, SweepSafe, OffersBundle;
  }

  lemma AckOutput(c: Config, w: World, id: Guid)
    requires Inv(c, w)
    ensures var jobs' := AckedJobs(w.jobs, id);
      && SuccessesFit(jobs', w.past) && BundlesFit(jobs', w.past)
      && BytesFit(c, jobs', w.store, w.files, w.filesPurged)
  {
    hide WorkersFit, SweepsFit, OutboxFits, FilesFit, LedgerFits, AcksFit, OffersFit, HomesFit, JobFits, BundleOf, BytesOf;
    var jobs' := AckedJobs(w.jobs, id);
    forall j | j in jobs'
      ensures BundleOf(j, jobs'[j], w.past.bundles) && BytesOf(c, j, jobs'[j], w.store, w.files, w.filesPurged)
    {
      AckedOutput(c, j, w.jobs[j], id, w.past.bundles, w.store, w.files, w.filesPurged);
    }
  }

  lemma AckedWorker(c: Config, jobs: map<Guid, Job>, id: Guid, k: Guid, worker: Worker, store: map<BlobKey, Blob>, past: History)
    requires WorkerFits(c, jobs, k, worker, store, past) && JobsFit(jobs)
    ensures WorkerFits(c, AckedJobs(jobs, id), k, worker, store, past)
  {
    hide PhaseFits;
    if worker.job in jobs {
      var p := jobs[worker.job];
      AckedFits(0, p, id);
      if Owning(p, k, worker.phase) {
        ViewKeepsPhase(c, worker.job, p, Acknowledged(p, id), worker.phase, store);
      }
    }
  }

  lemma AckBystanders(c: Config, w: World, id: Guid)
    requires Inv(c, w)
    ensures var jobs' := AckedJobs(w.jobs, id);
      && WorkersFit(c, jobs', w.workers, w.store, w.past) && SweepsFit(w.clock, jobs', w.sweeps, w.past)
      && OutboxFits(c, jobs', w.past.artifacts, w.outbox) && FilesFit(c, jobs', w.past.artifacts, w.files)
  {
    hide HomesFit, LedgerFits, SuccessesFit, BundlesFit, OffersFit, BytesFit, AcksFit, PhaseFits, JobFits;
    var jobs' := AckedJobs(w.jobs, id);
    forall k | k in w.workers ensures WorkerFits(c, jobs', k, w.workers[k], w.store, w.past) {
      AckedWorker(c, w.jobs, id, k, w.workers[k], w.store, w.past);
    }
    forall s | s in w.sweeps ensures SweepFits(w.clock, jobs', w.sweeps[s], w.past) {
      assert SweepFits(w.clock, w.jobs, w.sweeps[s], w.past);
      if w.sweeps[s].job in w.jobs { AckedFits(w.clock, w.jobs[w.sweeps[s].job], id); }
    }
    forall m | m in w.outbox ensures MessageFits(c, jobs', w.past.artifacts, m) {
      assert MessageFits(c, w.jobs, w.past.artifacts, m);
    }
    forall f | f in w.files ensures RowFits(c, jobs', w.past.artifacts, f, w.files[f]) {
      assert RowFits(c, w.jobs, w.past.artifacts, f, w.files[f]);
    }
  }

  lemma DeliverAckKeeps(c: Config, w: World, id: Guid)
    requires Inv(c, w)
    ensures Inv(c, ApplyDeliverAck(w, id))
  {
    if id in w.acks {
      hide JobsFit, HomesFit, LedgerFits, SuccessesFit, BundlesFit, OffersFit, WorkersFit, SweepsFit, BytesFit, OutboxFits,
        FilesFit, AcksFit;
      AckTables(c, w, id);
      AckLedger(w.jobs, w.ledger, w.past.itemHome, id);
      AckOutput(c, w, id);
      AckBystanders(c, w, id);
    }
  }

  // ---------- Storage's own handlers ----------

  /** The main keys of published rows are keys of ready PDFs, so nobody is still producing them. */
  lemma PublishedKeysAreReady(c: Config, w: World, id: Guid, j: Guid, a: Guid)
    requires Inv(c, w) && id in w.files && ReportKey(c.tenant, j, a) in Keys(w.files[id])
    ensures a == id && id in w.past.artifacts && w.past.artifacts[id].job == j && w.past.artifacts[id].item.Some?
    ensures j in w.jobs && a in w.jobs[j].artifacts ==> w.jobs[j].artifacts[a].ready
  {
    assert RowFits(c, w.jobs, w.past.artifacts, id, w.files[id]);
  }

  /** Whatever Storage does to bytes, runs in progress and bundles keep theirs. */
  lemma StorageBytes(c: Config, w: World, store: map<BlobKey, Blob>, files: map<Guid, FileRow>, purged: bool)
    requires Inv(c, w)
    requires forall j, a | ReportKey(c.tenant, j, a) in store ::
               ReportKey(c.tenant, j, a) in w.store && store[ReportKey(c.tenant, j, a)] == w.store[ReportKey(c.tenant, j, a)]
    requires forall j, a | ReportKey(c.tenant, j, a) in w.store && ReportKey(c.tenant, j, a) !in store ::
               Withdrawn(files, purged, a) && exists id | id in w.files :: ReportKey(c.tenant, j, a) in Keys(w.files[id])
    requires forall a | Withdrawn(w.files, w.filesPurged, a) :: Withdrawn(files, purged, a)
    ensures BytesFit(c, w.jobs, store, files, purged) && WorkersFit(c, w.jobs, w.workers, store, w.past)
  {
    hide JobsFit, HomesFit, LedgerFits, SuccessesFit, BundlesFit, OffersFit, SweepsFit, OutboxFits, FilesFit, AcksFit, Keys;
    forall j | j in w.jobs ensures BytesOf(c, j, w.jobs[j], store, files, purged) {
      assert BytesOf(c, j, w.jobs[j], w.store, w.files, w.filesPurged);
      AtJob(c, w, j);
      forall a | ReadyZip(w.jobs[j], a, w.jobs[j].revision) ensures ReportKey(c.tenant, j, a) in store {
        if ReportKey(c.tenant, j, a) !in store {
          var id :| id in w.files && ReportKey(c.tenant, j, a) in Keys(w.files[id]);
          PublishedKeysAreReady(c, w, id, j, a);
        }
      }
    }
    forall k | k in w.workers ensures WorkerFits(c, w.jobs, k, w.workers[k], store, w.past) {
      assert WorkerFits(c, w.jobs, k, w.workers[k], w.store, w.past);
      var worker := w.workers[k];
      if Produces(worker.phase) && worker.job in w.jobs && worker.phase.artifact in w.jobs[worker.job].artifacts {
        var key := ReportKey(c.tenant, worker.job, worker.phase.artifact);
        if key in w.store && key !in store {
          var id :| id in w.files && key in Keys(w.files[id]);
          PublishedKeysAreReady(c, w, id, worker.job, worker.phase.artifact);
        }
      }
    }
  }

  lemma StorageCommit(c: Config, w: World, at: Instant, store: map<BlobKey, Blob>, files: map<Guid, FileRow>, purged: bool)
    requires Inv(c, w) && w.clock <= at
    requires BytesFit(c, w.jobs, store, files, purged) && WorkersFit(c, w.jobs, w.workers, store, w.past)
    requires FilesFit(c, w.jobs, w.past.artifacts, files) && AcksFit(w.jobs, w.acks, files, purged)
    ensures Inv(c, w.(clock := at, store := store, files := files, filesPurged := purged))
  {
    ClockKeeps(c, w, at);
    hide JobsFit, HomesFit, LedgerFits, SuccessesFit, BundlesFit, OffersFit, WorkersFit, SweepsFit, BytesFit, OutboxFits,
      FilesFit, AcksFit;
  }

  function StoreAfter(w: World, id: Guid, effect: Effect): map<BlobKey, Blob>
    requires id in w.files
  {
    match effect
    case Keep => w.store
    case EraseBytes => w.store - Keys(w.files[id])
    case WritePreview => w.store[w.files[id].key.(preview := true) := Excerpt]
  }

  lemma FileBytes(c: Config, w: World, at: Instant, id: Guid, op: Op)
    requires Inv(c, w) && id in w.files
    ensures var change := Apply(w.files[id], op, at, c.store);
      var store' := StoreAfter(w, id, change.effect);
      BytesFit(c, w.jobs, store', w.files[id := change.row], w.filesPurged) && WorkersFit(c, w.jobs, w.workers, store', w.past)
  {
    var change := Apply(w.files[id], op, at, c.store);
    var store', files' := StoreAfter(w, id, change.effect), w.files[id := change.row];
    assert RowFits(c, w.jobs, w.past.artifacts, id, w.files[id]);
    if w.files[id].status.Erased? { ErasedStays(w.files[id], op, at, c.store); }
    hide JobsFit, HomesFit, LedgerFits, SuccessesFit, BundlesFit, OffersFit, SweepsFit, OutboxFits, FilesFit, AcksFit,
      BytesFit, WorkersFit, Announced, Inv;
    forall j, a | ReportKey(c.tenant, j, a) in w.store && ReportKey(c.tenant, j, a) !in store'
      ensures Withdrawn(files', w.filesPurged, a) && exists f | f in w.files :: ReportKey(c.tenant, j, a) in Keys(w.files[f])
    {
      assert ReportKey(c.tenant, j, a) in Keys(w.files[id]);
      PublishedKeysAreReady(c, w, id, j, a);
    }
    StorageBytes(c, w, store', files', w.filesPurged);
  }

  lemma FileActionKeeps(c: Config, w: World, at: Instant, id: Guid, op: Op)
    requires Inv(c, w) && w.clock <= at
    ensures Inv(c, ApplyFileAction(c, w, at, id, op))
  {
    if id in w.files {
      var change := Apply(w.files[id], op, at, c.store);
      var store', files' := StoreAfter(w, id, change.effect), w.files[id := change.row];
      FileBytes(c, w, at, id, op);
      RowKeepsIdentity(w.files[id], op, at, c.store);
      FileTables(c, w, id, change.row);
      hide Inv, BytesFit, WorkersFit, FilesFit, AcksFit;
      StorageCommit(c, w, at, store', files', w.filesPurged);
      assert ApplyFileAction(c, w, at, id, op)
          == w.(clock := at, store := store', files := files', filesPurged := w.filesPurged);
    }
  }

  lemma FileTables(c: Config, w: World, id: Guid, row: FileRow)
    requires Inv(c, w) && id in w.files
    requires row.key == w.files[id].key && row.origin == w.files[id].origin && row.originId == w.files[id].originId
    requires row.preview.None? || row.preview == w.files[id].preview || row.preview.value == row.key.(preview := true)
    ensures FilesFit(c, w.jobs, w.past.artifacts, w.files[id := row]) && AcksFit(w.jobs, w.acks, w.files[id := row], w.filesPurged)
  {
    hide JobsFit, HomesFit, LedgerFits, SuccessesFit, BundlesFit, OffersFit, WorkersFit, SweepsFit, BytesFit, OutboxFits, Announced;
    assert RowFits(c, w.jobs, w.past.artifacts, id, w.files[id]);
  }

  lemma PurgeFilesKeeps(c: Config, w: World)
    requires Inv(c, w)
    ensures Inv(c, ApplyPurgeFiles(w))
  {
    Tables(c, w);
    var store' := w.store - set id, key | id in w.files && key in Keys(w.files[id]) :: key;
    hide JobsFit, HomesFit, LedgerFits, SuccessesFit, BundlesFit, OffersFit, WorkersFit, SweepsFit, BytesFit, OutboxFits, Inv, Keys;
    StorageBytes(c, w, store', map[], true);
    StorageCommit(c, w, w.clock, store', map[], true);
    assert ApplyPurgeFiles(w) == w.(clock := w.clock, store := store', files := map[], filesPurged := true);
  }
}
