/**
 * What holds in every reachable world, stated table by table so that an action only
 * has to be checked against the tables it writes.
 */
module ReportInvariant {
  import opened Basics
  import opened FileRows
  import opened ReportTypes
  import opened ReportRules
  import opened ReportWorld

  // ---------- one job ----------

  ghost predicate NoneRunning(items: map<Guid, Item>) {
    forall i | i in items :: !items[i].state.Running?
  }

  ghost predicate NoneOpen(items: map<Guid, Item>) {
    forall i | i in items :: !Open(items[i].state)
  }

  ghost predicate OnlyRunning(items: map<Guid, Item>, i: Guid) {
    && i in items && items[i].state.Running?
    && forall k | k in items && k != i :: !items[k].state.Running?
  }

  predicate Closed(s: JobState) {
    s.Completed? || s.CompletedWithErrors? || s.Failed? || s.Canceled?
  }

  ghost predicate SomeSucceeded(items: map<Guid, Item>) {
    exists i :: i in items && items[i].state.Succeeded?
  }

  lemma SomeSucceed(items: map<Guid, Item>)
    ensures SomeSucceeded(items) <==> Successes(items) != {}
  {
    if SomeSucceeded(items) {
      var i :| i in items && items[i].state.Succeeded?;
      assert i in Successes(items);
    } else {
      assert forall i :: i !in Successes(items);
    }
  }

  /** The only error a run ends with: a bulk run rendered something and could not bundle it. */
  ghost predicate BundleFailed(error: Option<string>, mode: Mode, items: map<Guid, Item>) {
    error == Some("bundle_failed") && mode.Bulk? && SomeSucceeded(items)
  }

  ghost predicate ItemsFit(job: Job) {
    && (job.state.Queued? ==> NoneRunning(job.items))
    && (Closed(job.state) ==> NoneOpen(job.items))
    && (job.state.Completed? ==> forall i | i in job.items :: job.items[i].state.Succeeded?)
    && (job.state.Completed? || job.state.CompletedWithErrors? ==> SomeSucceeded(job.items))
    && (job.state.CompletedWithErrors? ==> exists i :: i in job.items && !job.items[i].state.Succeeded?)
    && (job.state.Failed? && job.error.None? ==> !SomeSucceeded(job.items))
    && (job.error.Some? ==> (job.state.Failed? || job.state.Purging?) && BundleFailed(job.error, job.mode, job.items))
    && forall i | i in job.items :: 1 <= |job.items[i].sites| <= 1000
  }

  /** A succeeded item has exactly one ready PDF, any other item has none. */
  ghost predicate PdfsFit(job: Job) {
    && (forall a, i :: ReadyPdf(job, a, i) ==> i in job.items && job.items[i].state.Succeeded?)
    && (forall a, b, i :: ReadyPdf(job, a, i) && ReadyPdf(job, b, i) ==> a == b)
    && (!job.state.Purging? ==>
          forall i | i in job.items && job.items[i].state.Succeeded? :: exists a :: ReadyPdf(job, a, i))
  }

  ghost predicate ArtifactsFit(job: Job) {
    forall a | a in job.artifacts ::
      var art := job.artifacts[a];
      && art.revision <= job.revision
      && (art.item.Some? ==> art.item.value in job.items)
      && (art.ready ==> art.bytes > 0)
      && (art.filePublished ==> art.ready && art.item.Some?)
  }

  ghost predicate JobFits(job: Job) {
    ItemsFit(job) && PdfsFit(job) && ArtifactsFit(job)
  }

  ghost predicate JobsFit(jobs: map<Guid, Job>) {
    forall j | j in jobs :: JobFits(jobs[j])
  }

  // ---------- identities ----------

  ghost predicate HomeOf(j: Guid, job: Job, past: History) {
    && j in past.jobs
    && (forall i | i in job.items :: i in past.itemHome && past.itemHome[i] == j)
    && (forall a | a in job.artifacts ::
          a in past.artifacts && past.artifacts[a].job == j && past.artifacts[a].item == job.artifacts[a].item)
  }

  ghost predicate HomesFit(jobs: map<Guid, Job>, past: History) {
    && (forall j | j in jobs :: HomeOf(j, jobs[j], past))
    && (forall i | i in past.itemHome :: past.itemHome[i] in past.jobs)
  }

  // ---------- the ledger ----------

  /** The items that hold a unit of quota. */
  predicate HoldsUnit(job: Job, i: Guid)
    requires i in job.items
  {
    (Active(job.state) && Open(job.items[i].state)) || (!job.state.Purging? && job.items[i].state.Succeeded?)
  }

  ghost predicate LedgerOf(ledger: map<Guid, Entry>, j: Guid, job: Job) {
    forall i | i in job.items ::
      && (i in ledger <==> HoldsUnit(job, i))
      && (i in ledger ==> ledger[i].job == j && (ledger[i].consumed <==> job.items[i].state.Succeeded?))
  }

  ghost predicate EntryFits(e: Guid, entry: Entry, jobs: map<Guid, Job>, home: map<Guid, Guid>) {
    && e in home && home[e] == entry.job
    && (if entry.job in jobs then e in jobs[entry.job].items else entry.consumed)
  }

  ghost predicate LedgerFits(jobs: map<Guid, Job>, ledger: map<Guid, Entry>, home: map<Guid, Guid>) {
    && (forall j | j in jobs :: LedgerOf(ledger, j, jobs[j]))
    && (forall e | e in ledger :: EntryFits(e, ledger[e], jobs, home))
  }

  // ---------- successes and bundles over the whole run ----------

  ghost predicate SuccessesFit(jobs: map<Guid, Job>, past: History) {
    forall i | i in past.successes ::
      && past.successes[i] == 1
      && i in past.itemHome
      && (past.itemHome[i] in jobs ==>
            i in jobs[past.itemHome[i]].items && jobs[past.itemHome[i]].items[i].state.Succeeded?)
  }

  /** Bundles recorded at a job's revision are its ready bundles, and there is at most one. */
  ghost predicate BundleOf(j: Guid, job: Job, bundles: set<Bundle>) {
    && (forall b | b in bundles && b.job == j ::
          b.revision <= job.revision && (b.revision == job.revision ==> ReadyZip(job, b.artifact, b.revision)))
    && (forall a :: ReadyZip(job, a, job.revision) ==>
                      Bundle(j, job.revision, a) in bundles && NoneOpen(job.items))
  }

  ghost predicate OneBundleEach(bundles: set<Bundle>) {
    forall b, d | b in bundles && d in bundles && b.job == d.job && b.revision == d.revision :: b == d
  }

  ghost predicate BundlesFit(jobs: map<Guid, Job>, past: History) {
    && OneBundleEach(past.bundles)
    && (forall b | b in past.bundles :: b.job in past.jobs)
    && (forall j | j in jobs :: BundleOf(j, jobs[j], past.bundles))
  }

  /** A bulk run that reports completion offers its bundle until it expires. */
  ghost predicate OffersBundle(clock: Instant, job: Job) {
    job.mode.Bulk? && (job.state.Completed? || job.state.CompletedWithErrors?) ==>
      Due(job.expiresAt, clock) || HasBundle(job.artifacts, job.revision)
  }

  ghost predicate OffersFit(clock: Instant, jobs: map<Guid, Job>) {
    forall j | j in jobs :: OffersBundle(clock, jobs[j])
  }

  // ---------- workers ----------

  predicate OwnedBy(job: Job, id: Guid) { job.state.Running? && job.owner == Some(id) }

  function Unflagged(art: Artifact): Artifact { art.(filePublished := false) }

  /** Equal but for acknowledgements, which arrive whenever Storage sends them. */
  ghost predicate SameArtifacts(p: map<Guid, Artifact>, q: map<Guid, Artifact>) {
    p.Keys == q.Keys && forall a | a in p :: Unflagged(p[a]) == Unflagged(q[a])
  }

  function FullArchive(items: map<Guid, Item>): Blob {
    Zip(map i | i in Successes(items) :: Pdf(i))
  }

  ghost predicate Stored(store: map<BlobKey, Blob>, key: BlobKey, blob: Blob) {
    key in store && store[key] == blob
  }

  /** What a worker knows about its job as long as it still owns it. */
  ghost predicate PhaseFits(c: Config, j: Guid, job: Job, phase: Phase, store: map<BlobKey, Blob>) {
    match phase
    case Idle => NoneRunning(job.items)
    case GotRow(_, mode) => mode == job.mode && NoneRunning(job.items)
    case GotItems(_, mode, items) => mode == job.mode && NoneRunning(job.items) && items == job.items
    case Planning(_, mode, items, artifacts) =>
      mode == job.mode && NoneRunning(job.items) && items == job.items && SameArtifacts(artifacts, job.artifacts)
    case Rendering(_, i, a) => OnlyRunning(job.items, i) && a in job.artifacts
    case Settling(_, i, a, outcome) =>
      && OnlyRunning(job.items, i) && a in job.artifacts
      && (outcome.Rendered? ==> outcome.bytes > 0 && Stored(store, ReportKey(c.tenant, j, a), Pdf(i)))
    case Zipping(revision, a, items, artifacts) =>
      && NoneOpen(job.items) && items == job.items && job.mode.Bulk? && SomeSucceeded(items)
      && a in job.artifacts && job.artifacts[a].revision == revision
      && SameArtifacts(artifacts, job.artifacts - {a}) && !HasBundle(job.artifacts, revision)
    case Zipped(revision, a, items, bytes) =>
      && NoneOpen(job.items) && items == job.items && job.mode.Bulk? && SomeSucceeded(items) && bytes > 0
      && a in job.artifacts && job.artifacts[a].revision == revision
      && !HasBundle(job.artifacts, revision) && Stored(store, ReportKey(c.tenant, j, a), FullArchive(items))
    case Concluding(revision, verdict, error) =>
      && NoneOpen(job.items)
      && if error.Some? then verdict.Failed? && BundleFailed(error, job.mode, job.items)
         else
           && verdict == Verdict(job.items)
           && (job.mode.Bulk? && SomeSucceeded(job.items) ==> HasBundle(job.artifacts, revision))
    case Leaving => true
  }

  predicate Owning(job: Job, id: Guid, phase: Phase) {
    match phase
    case Idle => OwnedBy(job, id)
    case Leaving => false
    case _ => Owns(job, phase.revision, id)
  }

  predicate Produces(phase: Phase) {
    phase.Rendering? || phase.Settling? || phase.Zipping? || phase.Zipped?
  }

  function Product(phase: Phase): Option<Guid>
    requires Produces(phase)
  {
    if phase.Rendering? || phase.Settling? then Some(phase.item) else None
  }

  /** An artifact still in a worker's hands is that worker's own and not ready, lease or no lease. */
  ghost predicate ProductFits(jobs: map<Guid, Job>, id: Guid, worker: Worker, origins: map<Guid, ArtifactOrigin>) {
    Produces(worker.phase) ==>
      var a := worker.phase.artifact;
      && a in origins && origins[a] == ArtifactOrigin(worker.job, Product(worker.phase), id)
      && (worker.job in jobs && a in jobs[worker.job].artifacts ==> !jobs[worker.job].artifacts[a].ready)
  }

  ghost predicate WorkerFits(c: Config, jobs: map<Guid, Job>, id: Guid, worker: Worker, store: map<BlobKey, Blob>, past: History) {
    && id in past.workers && worker.job in past.jobs
    && ProductFits(jobs, id, worker, past.artifacts)
    && (worker.job in jobs && Owning(jobs[worker.job], id, worker.phase) ==>
          PhaseFits(c, worker.job, jobs[worker.job], worker.phase, store))
  }

  ghost predicate WorkersFit(c: Config, jobs: map<Guid, Job>, workers: map<Guid, Worker>, store: map<BlobKey, Blob>, past: History) {
    && (forall id | id in workers :: WorkerFits(c, jobs, id, workers[id], store, past))
    && (forall j | j in jobs && jobs[j].owner.Some? :: jobs[j].owner.value in past.workers)
  }

  // ---------- the sweep ----------

  /** Nothing can make this job run again. */
  predicate Gone(job: Job, clock: Instant) {
    !Active(job.state) && (job.state.Purging? || Due(job.expiresAt, clock))
  }

  ghost predicate Outdated(job: Job) {
    forall a | a in job.artifacts :: job.artifacts[a].revision < job.revision
  }

  ghost predicate SweepFits(clock: Instant, jobs: map<Guid, Job>, sweep: Sweep, past: History) {
    && sweep.job in past.jobs
    && (sweep.job in jobs ==>
          var job := jobs[sweep.job];
          && (sweep.purging ==> job.state.Purging?)
          && (sweep.expired ==> Due(job.expiresAt, clock))
          && (!sweep.phase.Selected? ==> Gone(job, clock) && Outdated(job))
          && (sweep.phase.Doomed? ==> !KeepsPdf(job)))
    && (sweep.phase.Erasing? ==>
          && sweep.phase.left <= sweep.phase.ids
          && forall a | a in sweep.phase.ids ::
            && a in past.artifacts && past.artifacts[a].job == sweep.job
            && (sweep.job in jobs && a in jobs[sweep.job].artifacts ==>
                  a in Discarded(jobs[sweep.job], jobs[sweep.job].state.Purging?)))
  }

  ghost predicate SweepsFit(clock: Instant, jobs: map<Guid, Job>, sweeps: map<Guid, Sweep>, past: History) {
    forall s | s in sweeps :: SweepFits(clock, jobs, sweeps[s], past)
  }

  // ---------- retries ----------

  /** An open retry has read its job before any fence of a pass that is still at work, and nobody has read ahead. */
  ghost predicate RetriesFit(w: World) {
    forall r | r in w.retries ::
      var j := w.retries[r].job;
      && j in w.past.jobs
      && (j in w.jobs ==>
            && w.retries[r].revision <= w.jobs[j].revision
            && forall s | s in w.sweeps && w.sweeps[s].job == j && !w.sweeps[s].phase.Selected? :: w.retries[r].revision < w.jobs[j].revision)
  }

  // ---------- bytes ----------

  ghost predicate Withdrawn(files: map<Guid, FileRow>, purged: bool, a: Guid) {
    purged || (a in files && files[a].status.Erased?)
  }

  /** Ready output has its bytes, unless Storage, which owns published PDFs, erased them. */
  ghost predicate BytesOf(c: Config, j: Guid, job: Job, store: map<BlobKey, Blob>, files: map<Guid, FileRow>, purged: bool) {
    && (forall a, i | ReadyPdf(job, a, i) && ReportKey(c.tenant, j, a) in store ::
          store[ReportKey(c.tenant, j, a)] == Pdf(i))
    && (!job.state.Purging? ==>
          forall a, i | ReadyPdf(job, a, i) :: ReportKey(c.tenant, j, a) in store || Withdrawn(files, purged, a))
    && (forall a | ReadyZip(job, a, job.revision) :: Stored(store, ReportKey(c.tenant, j, a), FullArchive(job.items)))
  }

  ghost predicate BytesFit(c: Config, jobs: map<Guid, Job>, store: map<BlobKey, Blob>, files: map<Guid, FileRow>, purged: bool) {
    forall j | j in jobs :: BytesOf(c, j, jobs[j], store, files, purged)
  }

  // ---------- publication ----------

  /** `id` is a PDF attempt that became ready, as far as its job still knows it. */
  ghost predicate Announced(jobs: map<Guid, Job>, origins: map<Guid, ArtifactOrigin>, id: Guid) {
    && id in origins && origins[id].item.Some?
    && (origins[id].job in jobs && id in jobs[origins[id].job].artifacts ==>
          jobs[origins[id].job].artifacts[id].ready)
  }

  ghost predicate MessageFits(c: Config, jobs: map<Guid, Job>, origins: map<Guid, ArtifactOrigin>, m: Publish) {
    && Announced(jobs, origins, m.id)
    && m.key == ReportKey(c.tenant, origins[m.id].job, m.id)
    && m.origin == "report" && m.originId == origins[m.id].job
    && ValidPublication(c.tenant, m)
  }

  ghost predicate RowFits(c: Config, jobs: map<Guid, Job>, origins: map<Guid, ArtifactOrigin>, id: Guid, row: FileRow) {
    && Announced(jobs, origins, id)
    && row.key == ReportKey(c.tenant, origins[id].job, id)
    && row.origin == Some("report") && row.originId == Some(origins[id].job)
    && (row.preview.Some? ==> row.preview.value == row.key.(preview := true))
  }

  ghost predicate OutboxFits(c: Config, jobs: map<Guid, Job>, origins: map<Guid, ArtifactOrigin>, outbox: set<Publish>) {
    forall m | m in outbox :: MessageFits(c, jobs, origins, m)
  }

  ghost predicate FilesFit(c: Config, jobs: map<Guid, Job>, origins: map<Guid, ArtifactOrigin>, files: map<Guid, FileRow>) {
    forall id | id in files :: RowFits(c, jobs, origins, id, files[id])
  }

  ghost predicate FlagsOf(job: Job, files: map<Guid, FileRow>, purged: bool) {
    forall a | a in job.artifacts && job.artifacts[a].filePublished :: a in files || purged
  }

  ghost predicate AcksFit(jobs: map<Guid, Job>, acks: set<Guid>, files: map<Guid, FileRow>, purged: bool) {
    && (forall a | a in acks :: a in files || purged)
    && (forall j | j in jobs :: FlagsOf(jobs[j], files, purged))
    && (purged ==> files == map[])
  }

  // ---------- all of it ----------

  ghost predicate Inv(c: Config, w: World) {
    && JobsFit(w.jobs)
    && HomesFit(w.jobs, w.past)
    && LedgerFits(w.jobs, w.ledger, w.past.itemHome)
    && SuccessesFit(w.jobs, w.past)
    && BundlesFit(w.jobs, w.past)
    && OffersFit(w.clock, w.jobs)
    && WorkersFit(c, w.jobs, w.workers, w.store, w.past)
    && SweepsFit(w.clock, w.jobs, w.sweeps, w.past)
    && BytesFit(c, w.jobs, w.store, w.files, w.filesPurged)
    && OutboxFits(c, w.jobs, w.past.artifacts, w.outbox)
    && FilesFit(c, w.jobs, w.past.artifacts, w.files)
    && AcksFit(w.jobs, w.acks, w.files, w.filesPurged)
  }
}
