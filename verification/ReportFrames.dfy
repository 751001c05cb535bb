/**
 * Frame lemmas: when one job changes, each table's invariant only has to be
 * re-established for that job.
 */
module ReportFrames {
  import opened Basics
  import opened FileRows
  import opened ReportTypes
  import opened ReportRules
  import opened ReportWorld
  import opened ReportInvariant

  // ---------- ledger ----------

  lemma LedgerUpdate(jobs: map<Guid, Job>, ledger: map<Guid, Entry>, past: History, j: Guid, job: Job, ledger': map<Guid, Entry>)
    requires HomesFit(jobs, past) && LedgerFits(jobs, ledger, past.itemHome)
    requires j in jobs && job.items.Keys == jobs[j].items.Keys
    requires forall e :: e !in job.items ==> (e in ledger <==> e in ledger') && (e in ledger ==> ledger[e] == ledger'[e])
    requires LedgerOf(ledger', j, job)
    ensures LedgerFits(jobs[j := job], ledger', past.itemHome)
  {
    var jobs' := jobs[j := job];
    forall k | k in jobs' ensures LedgerOf(ledger', k, jobs'[k]) {
      if k != j {
        assert HomeOf(k, jobs[k], past) && HomeOf(j, jobs[j], past) && LedgerOf(ledger, k, jobs[k]);
        forall i | i in jobs[k].items ensures i !in job.items {
          assert past.itemHome[i] == k;
        }
      }
    }
    forall e | e in ledger' ensures EntryFits(e, ledger'[e], jobs', past.itemHome) {
      if e in job.items {
        assert HomeOf(j, jobs[j], past);
      } else {
        assert EntryFits(e, ledger[e], jobs, past.itemHome);
      }
    }
  }

  /** Releasing drops exactly the job's open units. */
  lemma ReleaseFits(jobs: map<Guid, Job>, ledger: map<Guid, Entry>, past: History, j: Guid, job: Job)
    requires HomesFit(jobs, past) && LedgerFits(jobs, ledger, past.itemHome) && j in jobs
    requires job.items.Keys == jobs[j].items.Keys && !Active(job.state)
    requires jobs[j].state.Purging? <==> job.state.Purging?
    requires forall i | i in job.items :: job.items[i].state.Succeeded? <==> jobs[j].items[i].state.Succeeded?
    ensures LedgerFits(jobs[j := job], Released(ledger, j), past.itemHome)
  {
    var ledger' := Released(ledger, j);
    forall e | e !in job.items ensures (e in ledger <==> e in ledger') && (e in ledger ==> ledger[e] == ledger'[e]) {
      if e in ledger { assert EntryFits(e, ledger[e], jobs, past.itemHome); }
    }
    assert LedgerOf(ledger, j, jobs[j]);
    LedgerUpdate(jobs, ledger, past, j, job, ledger');
  }

  /** The ledger stays exact when no item gains or loses its unit. */
  lemma SameUnits(jobs: map<Guid, Job>, ledger: map<Guid, Entry>, past: History, j: Guid, job: Job)
    requires HomesFit(jobs, past) && LedgerFits(jobs, ledger, past.itemHome) && j in jobs
    requires job.items.Keys == jobs[j].items.Keys
    requires forall i | i in job.items ::
               && (HoldsUnit(job, i) <==> HoldsUnit(jobs[j], i))
               && (job.items[i].state.Succeeded? <==> jobs[j].items[i].state.Succeeded?)
    ensures LedgerFits(jobs[j := job], ledger, past.itemHome)
  {
    assert LedgerOf(ledger, j, jobs[j]);
    LedgerUpdate(jobs, ledger, past, j, job, ledger);
  }

  // ---------- successes ----------

  /** Succeeded items stay succeeded as long as their job exists. */
  lemma SuccessesKeep(jobs: map<Guid, Job>, past: History, j: Guid, job: Job, past': History)
    requires SuccessesFit(jobs, past) && j in jobs
    requires past'.successes == past.successes && past'.itemHome == past.itemHome
    requires forall i | i in jobs[j].items && jobs[j].items[i].state.Succeeded? :: i in job.items && job.items[i].state.Succeeded?
    ensures SuccessesFit(jobs[j := job], past')
  {
  }

  // ---------- workers ----------

  /** All a worker can have observed of its job. */
  ghost predicate SameView(p: Job, q: Job) {
    p.items == q.items && p.mode == q.mode && p.revision == q.revision && SameArtifacts(p.artifacts, q.artifacts)
  }

  lemma SameArtifactsShare(p: map<Guid, Artifact>, q: map<Guid, Artifact>, a: Guid)
    requires SameArtifacts(p, q) && a in p
    ensures a in q && p[a].ready == q[a].ready && p[a].item == q[a].item && p[a].revision == q[a].revision
  {
    assert Unflagged(p[a]) == Unflagged(q[a]);
  }

  lemma SameBundles(p: map<Guid, Artifact>, q: map<Guid, Artifact>, revision: int)
    requires SameArtifacts(p, q)
    ensures HasBundle(p, revision) <==> HasBundle(q, revision)
  {
    forall a | a in p ensures a in q && p[a].ready == q[a].ready && p[a].item == q[a].item && p[a].revision == q[a].revision {
      SameArtifactsShare(p, q, a);
    }
  }

  lemma ViewKeepsPhase(c: Config, j: Guid, p: Job, q: Job, phase: Phase, store: map<BlobKey, Blob>)
    requires PhaseFits(c, j, p, phase, store) && SameView(p, q)
    ensures PhaseFits(c, j, q, phase, store)
  {
    if phase.Zipping? || phase.Zipped? || phase.Concluding? {
      SameBundles(p.artifacts, q.artifacts, phase.revision);
    }
    if phase.Zipping? {
      var a := phase.artifact;
      assert SameArtifacts(p.artifacts - {a}, q.artifacts - {a});
    }
  }

  /** A worker keeps what it knows when its job changes out of its hands, or not visibly. */
  lemma BystanderKeeps(c: Config, jobs: map<Guid, Job>, j: Guid, job: Job, id: Guid, worker: Worker,
                       store: map<BlobKey, Blob>, past: History, past': History)
    requires j in jobs && WorkerFits(c, jobs, id, worker, store, past)
    requires worker.job == j && Owning(job, id, worker.phase) ==> Owning(jobs[j], id, worker.phase) && SameView(jobs[j], job)
    requires forall a | a in job.artifacts && job.artifacts[a].ready ::
               (a in jobs[j].artifacts && jobs[j].artifacts[a].ready) || (a in past.artifacts && past.artifacts[a].worker != id)
    requires past.jobs <= past'.jobs && past.workers <= past'.workers
    requires forall a | a in past.artifacts :: a in past'.artifacts && past'.artifacts[a] == past.artifacts[a]
    ensures WorkerFits(c, jobs[j := job], id, worker, store, past')
  {
    if worker.job == j && Owning(job, id, worker.phase) {
      ViewKeepsPhase(c, j, jobs[j], job, worker.phase, store);
    }
  }

  // ---------- sweeps ----------

  /** What a change of one job must leave to the sweep passes over it. */
  ghost predicate SweepSafe(clock: Instant, p: Job, clock': Instant, q: Job) {
    && clock <= clock'
    && (p.state.Purging? ==> q.state.Purging?)
    && (Due(p.expiresAt, clock) ==> Due(q.expiresAt, clock'))
    && (Gone(p, clock) ==>
          && Gone(q, clock') && p.revision <= q.revision
          && forall a | a in q.artifacts ::
               && a in p.artifacts && q.artifacts[a].revision == p.artifacts[a].revision
               && q.artifacts[a].ready == p.artifacts[a].ready && q.artifacts[a].item == p.artifacts[a].item)
  }

  lemma SweepKeeps(clock: Instant, clock': Instant, jobs: map<Guid, Job>, j: Guid, job: Job, sweep: Sweep, past: History, past': History)
    requires j in jobs && SweepFits(clock, jobs, sweep, past) && SweepSafe(clock, jobs[j], clock', job)
    requires past.jobs <= past'.jobs
    requires forall a | a in past.artifacts :: a in past'.artifacts && past'.artifacts[a] == past.artifacts[a]
    ensures SweepFits(clock', jobs[j := job], sweep, past')
  {
  }

  lemma SweepsKeep(clock: Instant, clock': Instant, jobs: map<Guid, Job>, j: Guid, job: Job, sweeps: map<Guid, Sweep>, past: History, past': History)
    requires j in jobs && SweepsFit(clock, jobs, sweeps, past) && SweepSafe(clock, jobs[j], clock', job)
    requires past.jobs <= past'.jobs
    requires forall a | a in past.artifacts :: a in past'.artifacts && past'.artifacts[a] == past.artifacts[a]
    ensures SweepsFit(clock', jobs[j := job], sweeps, past')
  {
    forall s | s in sweeps ensures SweepFits(clock', jobs[j := job], sweeps[s], past') {
      SweepKeeps(clock, clock', jobs, j, job, sweeps[s], past, past');
    }
  }

  lemma SweepsWait(clock: Instant, clock': Instant, jobs: map<Guid, Job>, sweeps: map<Guid, Sweep>, past: History)
    requires SweepsFit(clock, jobs, sweeps, past) && clock <= clock'
    ensures SweepsFit(clock', jobs, sweeps, past)
  {
    forall s | s in sweeps ensures SweepFits(clock', jobs, sweeps[s], past) {
      assert SweepFits(clock, jobs, sweeps[s], past);
    }
  }

  // ---------- publication ----------

  /** Ready PDFs stay ready and new artifact rows are new artifacts. */
  ghost predicate ReadyKept(p: Job, q: Job, origins: map<Guid, ArtifactOrigin>) {
    forall a | a in q.artifacts ::
      if a in p.artifacts then p.artifacts[a].ready ==> q.artifacts[a].ready else a !in origins
  }

  ghost predicate Extends(origins: map<Guid, ArtifactOrigin>, origins': map<Guid, ArtifactOrigin>) {
    forall a | a in origins :: a in origins' && origins'[a] == origins[a]
  }

  lemma AnnouncedKeeps(jobs: map<Guid, Job>, j: Guid, job: Job, origins: map<Guid, ArtifactOrigin>, origins': map<Guid, ArtifactOrigin>, id: Guid)
    requires j in jobs && Announced(jobs, origins, id) && ReadyKept(jobs[j], job, origins) && Extends(origins, origins')
    ensures Announced(jobs[j := job], origins', id)
  {
  }

  lemma NewMessagesFit(c: Config, jobs: map<Guid, Job>, j: Guid, job: Job, past: History)
    requires j in jobs && JobFits(job) && HomeOf(j, job, past)
    ensures forall m | m in NewlyReady(c.tenant, j, jobs[j], job) :: MessageFits(c, jobs[j := job], past.artifacts, m)
  {
  }

  lemma OutboxKeeps(c: Config, jobs: map<Guid, Job>, j: Guid, job: Job, past: History, past': History, outbox: set<Publish>)
    requires j in jobs && OutboxFits(c, jobs, past.artifacts, outbox)
    requires ReadyKept(jobs[j], job, past.artifacts) && Extends(past.artifacts, past'.artifacts)
    requires JobFits(job) && HomeOf(j, job, past')
    ensures OutboxFits(c, jobs[j := job], past'.artifacts, outbox + NewlyReady(c.tenant, j, jobs[j], job))
    ensures OutboxFits(c, jobs[j := job], past'.artifacts, outbox)
  {
    NewMessagesFit(c, jobs, j, job, past');
    forall m | m in outbox ensures MessageFits(c, jobs[j := job], past'.artifacts, m) {
      AnnouncedKeeps(jobs, j, job, past.artifacts, past'.artifacts, m.id);
    }
  }

  lemma FilesKeep(c: Config, jobs: map<Guid, Job>, j: Guid, job: Job, past: History, past': History, files: map<Guid, FileRow>)
    requires j in jobs && FilesFit(c, jobs, past.artifacts, files)
    requires ReadyKept(jobs[j], job, past.artifacts) && Extends(past.artifacts, past'.artifacts)
    ensures FilesFit(c, jobs[j := job], past'.artifacts, files)
  {
    forall id | id in files ensures RowFits(c, jobs[j := job], past'.artifacts, id, files[id]) {
      AnnouncedKeeps(jobs, j, job, past.artifacts, past'.artifacts, id);
    }
  }

  // ---------- the whole invariant ----------

  ghost predicate PastGrows(past: History, past': History) {
    && past.jobs <= past'.jobs && past.workers <= past'.workers
    && past.itemHome == past'.itemHome && Extends(past.artifacts, past'.artifacts)
  }

  lemma JobsUpdate(jobs: map<Guid, Job>, j: Guid, job: Job)
    requires JobsFit(jobs) && JobFits(job)
    ensures JobsFit(jobs[j := job])
  {
  }

  lemma HomesUpdate(jobs: map<Guid, Job>, j: Guid, job: Job, past: History, past': History)
    requires HomesFit(jobs, past) && PastGrows(past, past') && HomeOf(j, job, past')
    ensures HomesFit(jobs[j := job], past')
  {
    forall k | k in jobs && k != j ensures HomeOf(k, jobs[k], past') {
      assert HomeOf(k, jobs[k], past);
    }
  }

  lemma OffersUpdate(clock: Instant, clock': Instant, jobs: map<Guid, Job>, j: Guid, job: Job)
    requires OffersFit(clock, jobs) && clock <= clock' && OffersBundle(clock', job)
    ensures OffersFit(clock', jobs[j := job])
  {
  }

  lemma BytesUpdate(c: Config, jobs: map<Guid, Job>, j: Guid, job: Job, store: map<BlobKey, Blob>, files: map<Guid, FileRow>, purged: bool)
    requires BytesFit(c, jobs, store, files, purged) && BytesOf(c, j, job, store, files, purged)
    ensures BytesFit(c, jobs[j := job], store, files, purged)
  {
  }

  lemma AcksUpdate(jobs: map<Guid, Job>, j: Guid, job: Job, acks: set<Guid>, files: map<Guid, FileRow>, purged: bool)
    requires AcksFit(jobs, acks, files, purged) && FlagsOf(job, files, purged)
    ensures AcksFit(jobs[j := job], acks, files, purged)
  {
  }

  /** A transaction on one job keeps the invariant if it does for that job. */
  lemma JobCommit(c: Config, w: World, w': World, j: Guid, job: Job)
    requires Inv(c, w) && j in w.jobs && w'.jobs == w.jobs[j := job]
    requires w.clock <= w'.clock && PastGrows(w.past, w'.past)
    requires JobFits(job) && HomeOf(j, job, w'.past)
    requires LedgerFits(w'.jobs, w'.ledger, w'.past.itemHome)
    requires SuccessesFit(w'.jobs, w'.past) && BundlesFit(w'.jobs, w'.past)
    requires OffersBundle(w'.clock, job)
    requires WorkersFit(c, w'.jobs, w'.workers, w'.store, w'.past)
    requires w'.sweeps == w.sweeps
    requires SweepSafe(w.clock, w.jobs[j], w'.clock, job) || SweepsFit(w'.clock, w'.jobs, w.sweeps, w'.past)
    requires w'.store == w.store && w'.files == w.files && w'.filesPurged == w.filesPurged && w'.acks == w.acks
    requires BytesOf(c, j, job, w.store, w.files, w.filesPurged)
    requires ReadyKept(w.jobs[j], job, w.past.artifacts) && FlagsOf(job, w.files, w.filesPurged)
    requires w'.outbox == w.outbox || w'.outbox == w.outbox + NewlyReady(c.tenant, j, w.jobs[j], job)
    ensures Inv(c, w')
  {
    JobsUpdate(w.jobs, j, job);
    HomesUpdate(w.jobs, j, job, w.past, w'.past);
    OffersUpdate(w.clock, w'.clock, w.jobs, j, job);
    BytesUpdate(c, w.jobs, j, job, w.store, w.files, w.filesPurged);
    AcksUpdate(w.jobs, j, job, w.acks, w.files, w.filesPurged);
    if SweepSafe(w.clock, w.jobs[j], w'.clock, job) {
      SweepsKeep(w.clock, w'.clock, w.jobs, j, job, w.sweeps, w.past, w'.past);
    }
    OutboxKeeps(c, w.jobs, j, job, w.past, w'.past, w.outbox);
    FilesKeep(c, w.jobs, j, job, w.past, w'.past, w.files);
  }

  lemma Tables(c: Config, w: World)
    requires Inv(c, w)
    ensures JobsFit(w.jobs) && HomesFit(w.jobs, w.past) && LedgerFits(w.jobs, w.ledger, w.past.itemHome)
    ensures SuccessesFit(w.jobs, w.past) && BundlesFit(w.jobs, w.past) && OffersFit(w.clock, w.jobs)
    ensures WorkersFit(c, w.jobs, w.workers, w.store, w.past) && SweepsFit(w.clock, w.jobs, w.sweeps, w.past)
    ensures BytesFit(c, w.jobs, w.store, w.files, w.filesPurged)
    ensures OutboxFits(c, w.jobs, w.past.artifacts, w.outbox) && FilesFit(c, w.jobs, w.past.artifacts, w.files)
    ensures AcksFit(w.jobs, w.acks, w.files, w.filesPurged)
  {
  }

  lemma AtJob(c: Config, w: World, j: Guid)
    requires Inv(c, w) && j in w.jobs
    ensures JobFits(w.jobs[j]) && HomeOf(j, w.jobs[j], w.past) && FlagsOf(w.jobs[j], w.files, w.filesPurged)
  {
  }

  lemma AtWorker(c: Config, w: World, id: Guid)
    requires Inv(c, w) && id in w.workers
    ensures WorkerFits(c, w.jobs, id, w.workers[id], w.store, w.past)
  {
  }

  /** The same for a worker's transaction, which also announces what became ready. */
  lemma CommitKeeps(c: Config, w: World, at: Instant, j: Guid, job: Job, ledger: map<Guid, Entry>,
                    workers: map<Guid, Worker>, past: History)
    requires Inv(c, w) && j in w.jobs && w.clock <= at && PastGrows(w.past, past)
    requires JobFits(job) && HomeOf(j, job, past)
    requires LedgerFits(w.jobs[j := job], ledger, past.itemHome)
    requires SuccessesFit(w.jobs[j := job], past) && BundlesFit(w.jobs[j := job], past)
    requires OffersBundle(at, job)
    requires WorkersFit(c, w.jobs[j := job], workers, w.store, past)
    requires SweepSafe(w.clock, w.jobs[j], at, job)
    requires BytesOf(c, j, job, w.store, w.files, w.filesPurged)
    requires ReadyKept(w.jobs[j], job, w.past.artifacts) && FlagsOf(job, w.files, w.filesPurged)
    ensures Inv(c, Commit(c, w, at, j, job).(ledger := ledger, workers := workers, past := past))
  {
    hide JobsFit, HomesFit, LedgerFits, SuccessesFit, BundlesFit, OffersFit, WorkersFit, SweepsFit, BytesFit, OutboxFits,
      FilesFit, AcksFit, JobFits, HomeOf, OffersBundle, SweepSafe, BytesOf, ReadyKept, FlagsOf, PastGrows;
    JobCommit(c, w, Commit(c, w, at, j, job).(ledger := ledger, workers := workers, past := past), j, job);
  }

  /** Whoever does not own the new version of the job is a bystander. */
  lemma OthersKeep(c: Config, jobs: map<Guid, Job>, workers: map<Guid, Worker>, store: map<BlobKey, Blob>,
                   past: History, past': History, j: Guid, job: Job, id: Guid)
    requires WorkersFit(c, jobs, workers, store, past) && j in jobs && PastGrows(past, past')
    requires job.state.Running? ==> job.owner.None? || job.owner == Some(id)
    requires forall a | a in job.artifacts && job.artifacts[a].ready ::
               (a in jobs[j].artifacts && jobs[j].artifacts[a].ready)
               || (a in past.artifacts && past.artifacts[a].worker == id)
    ensures forall k | k in workers && k != id :: WorkerFits(c, jobs[j := job], k, workers[k], store, past')
  {
    forall k | k in workers && k != id ensures WorkerFits(c, jobs[j := job], k, workers[k], store, past') {
      BystanderKeeps(c, jobs, j, job, k, workers[k], store, past, past');
    }
  }

  /** The workers' table after worker `id` changed job `j` and moved to `worker`. */
  lemma WorkersUpdate(c: Config, jobs: map<Guid, Job>, workers: map<Guid, Worker>, store: map<BlobKey, Blob>,
                      past: History, past': History, j: Guid, job: Job, id: Guid, worker: Worker)
    requires WorkersFit(c, jobs, workers, store, past) && j in jobs && PastGrows(past, past')
    requires job.state.Running? ==> job.owner.None? || job.owner == Some(id)
    requires job.owner.Some? ==> job.owner.value in past'.workers
    requires forall a | a in job.artifacts && job.artifacts[a].ready ::
               (a in jobs[j].artifacts && jobs[j].artifacts[a].ready)
               || (a in past.artifacts && past.artifacts[a].worker == id)
    requires WorkerFits(c, jobs[j := job], id, worker, store, past')
    ensures WorkersFit(c, jobs[j := job], workers[id := worker], store, past')
  {
    OthersKeep(c, jobs, workers, store, past, past', j, job, id);
  }
}
