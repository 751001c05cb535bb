/** Every worker action keeps the invariant, whether or not the worker still owns its job. */
module ReportWorkers {
  import opened Basics
  import opened FileRows
  import opened ReportTypes
  import opened ReportRules
  import opened ReportWorld
  import opened ReportInvariant
  import opened ReportFrames

  // ---------- changes that leave the output alone ----------

  /** Same output, same succeeded items, a revision that did not go back; new attempts are not output. */
  ghost predicate SameOutput(p: Job, q: Job) {
    && q.mode == p.mode && q.items.Keys == p.items.Keys && p.artifacts.Keys <= q.artifacts.Keys
    && (forall a | a in q.artifacts ::
          if a in p.artifacts then q.artifacts[a] == p.artifacts[a] else NewAttempt(q, q.artifacts[a]))
    && p.revision <= q.revision && (p.revision == q.revision && NoneOpen(p.items) ==> NoneOpen(q.items))
    && (p.state.Purging? ==> q.state.Purging?)
    && forall i | i in p.items ::
      && (q.items[i].state.Succeeded? <==> p.items[i].state.Succeeded?)
      && q.items[i].sites == p.items[i].sites
  }

  predicate NewAttempt(job: Job, art: Artifact) {
    && !art.ready && !art.filePublished && art.revision <= job.revision
    && (art.item.Some? ==> art.item.value in job.items)
  }

  /** The new rows of a job are new artifacts of its own. */
  ghost predicate NewRows(j: Guid, p: Job, q: Job, past: History, past': History) {
    forall a | a in q.artifacts && a !in p.artifacts ::
      && a !in past.artifacts && a in past'.artifacts
      && past'.artifacts[a].job == j && past'.artifacts[a].item == q.artifacts[a].item
  }

  lemma SameArchive(p: map<Guid, Item>, q: map<Guid, Item>)
    requires q.Keys == p.Keys && forall i | i in p :: q[i].state.Succeeded? <==> p[i].state.Succeeded?
    ensures Successes(p) == Successes(q) && FullArchive(p) == FullArchive(q)
  {
    forall i ensures i in Successes(p) <==> i in Successes(q) {
      if i in p {
        assert i in q;
      }
    }
    assert Successes(p) == Successes(q);
  }

  lemma SameOutputFits(p: Job, q: Job)
    requires JobFits(p) && SameOutput(p, q)
    ensures PdfsFit(q) && ArtifactsFit(q) && forall i | i in q.items :: 1 <= |q.items[i].sites| <= 1000
  {
    assert forall a, i :: ReadyPdf(p, a, i) <==> ReadyPdf(q, a, i);
  }

  lemma SameOutputBundles(jobs: map<Guid, Job>, past: History, j: Guid, q: Job, past': History)
    requires j in jobs && JobFits(jobs[j]) && SameOutput(jobs[j], q) && BundlesFit(jobs, past)
    requires past'.bundles == past.bundles && past.jobs <= past'.jobs
    ensures BundlesFit(jobs[j := q], past')
  {
    assert BundleOf(j, jobs[j], past.bundles);
    SameOutputBundle(j, jobs[j], q, past.bundles);
    hide BundleOf, SameOutput, JobFits;
  }

  lemma SameOutputBundle(j: Guid, p: Job, q: Job, bundles: set<Bundle>)
    requires JobFits(p) && SameOutput(p, q) && BundleOf(j, p, bundles)
    ensures BundleOf(j, q, bundles)
  {
    hide PdfsFit, ItemsFit;
    assert ArtifactsFit(p);
    assert forall a, r :: ReadyZip(p, a, r) <==> ReadyZip(q, a, r);
  }

  lemma SameOutputBytes(c: Config, jobs: map<Guid, Job>, j: Guid, q: Job, store: map<BlobKey, Blob>, files: map<Guid, FileRow>, purged: bool)
    requires j in jobs && JobFits(jobs[j]) && SameOutput(jobs[j], q) && BytesFit(c, jobs, store, files, purged)
    ensures BytesOf(c, j, q, store, files, purged)
  {
    SameArchive(jobs[j].items, q.items);
    assert BytesOf(c, j, jobs[j], store, files, purged) && ArtifactsFit(jobs[j]);
    assert forall a, i :: ReadyPdf(jobs[j], a, i) <==> ReadyPdf(q, a, i);
  }

  /** A transaction that leaves the output alone only has its own bookkeeping to justify. */
  lemma QuietCommit(c: Config, w: World, w': World, j: Guid, q: Job)
    requires Inv(c, w) && j in w.jobs && w'.jobs == w.jobs[j := q]
    requires SameOutput(w.jobs[j], q) && ItemsFit(q) && NewRows(j, w.jobs[j], q, w.past, w'.past)
    requires w.clock <= w'.clock && PastGrows(w.past, w'.past)
    requires w'.past.bundles == w.past.bundles && w'.past.successes == w.past.successes
    requires LedgerFits(w'.jobs, w'.ledger, w.past.itemHome)
    requires OffersBundle(w'.clock, q)
    requires WorkersFit(c, w'.jobs, w'.workers, w'.store, w'.past)
    requires w'.sweeps == w.sweeps
    requires SweepSafe(w.clock, w.jobs[j], w'.clock, q) || SweepsFit(w'.clock, w'.jobs, w.sweeps, w'.past)
    requires w'.store == w.store && w'.files == w.files && w'.filesPurged == w.filesPurged && w'.acks == w.acks
    requires w'.outbox == w.outbox || w'.outbox == w.outbox + NewlyReady(c.tenant, j, w.jobs[j], q)
    ensures Inv(c, w')
  {
    var p := w.jobs[j];
    assert JobFits(p) && HomeOf(j, p, w.past);
    SameOutputFits(p, q);
    SameOutputBundles(w.jobs, w.past, j, q, w'.past);
    SameOutputBytes(c, w.jobs, j, q, w.store, w.files, w.filesPurged);
    SuccessesKeep(w.jobs, w.past, j, q, w'.past);
    assert FlagsOf(p, w.files, w.filesPurged);
    JobCommit(c, w, w', j, q);
  }

  /** A worker's transaction that touches neither output nor quota. */
  lemma WorkerCommit(c: Config, w: World, at: Instant, j: Guid, q: Job, id: Guid, worker: Worker, past': History)
    requires Inv(c, w) && j in w.jobs && w.clock <= at
    requires SameOutput(w.jobs[j], q) && ItemsFit(q) && NewRows(j, w.jobs[j], q, w.past, past')
    requires forall i | i in q.items :: HoldsUnit(q, i) <==> HoldsUnit(w.jobs[j], i)
    requires PastGrows(w.past, past') && past'.bundles == w.past.bundles && past'.successes == w.past.successes
    requires q.state.Running? ==> q.owner.None? || q.owner == Some(id)
    requires q.owner.Some? ==> q.owner.value in past'.workers
    requires WorkerFits(c, w.jobs[j := q], id, worker, w.store, past')
    requires OffersBundle(at, q) && SweepSafe(w.clock, w.jobs[j], at, q)
    ensures Inv(c, Commit(c, w, at, j, q).(workers := w.workers[id := worker], past := past'))
  {
    hide SweepsFit, SweepFits, BytesFit, BytesOf, OutboxFits, FilesFit, AcksFit, BundlesFit, BundleOf, OffersFit;
    var w' := Commit(c, w, at, j, q).(workers := w.workers[id := worker], past := past');
    SameUnits(w.jobs, w.ledger, w.past, j, q);
    WorkersUpdate(c, w.jobs, w.workers, w.store, w.past, past', j, q, id, worker);
    QuietCommit(c, w, w', j, q);
  }

  // ---------- claim ----------

  lemma ClaimedFits(p: Job, id: Guid, limits: Limits, now: Instant)
    requires ItemsFit(p) && Claimable(p, now)
    ensures var q := Claimed(p, id, limits, now);
      && SameOutput(p, q) && ItemsFit(q) && NoneRunning(q.items)
      && (forall i | i in p.items :: HoldsUnit(q, i) <==> HoldsUnit(p, i))
  {
  }

  lemma ClaimKeeps(c: Config, w: World, at: Instant, j: Guid, id: Guid)
    requires Inv(c, w) && w.clock <= at
    ensures Inv(c, ApplyClaim(c, w, at, j, id))
  {
    hide SweepsFit, SweepFits, BytesFit, BytesOf, OutboxFits, FilesFit, AcksFit, BundlesFit, BundleOf, OffersFit, LedgerFits;
    if id !in w.past.workers && j in w.jobs && Claimable(w.jobs[j], at) {
      assert JobFits(w.jobs[j]) && HomeOf(j, w.jobs[j], w.past);
      ClaimedFits(w.jobs[j], id, c.limits, at);
      WorkerCommit(c, w, at, j, Claimed(w.jobs[j], id, c.limits, at), id, Worker(j, Idle),
                   w.past.(workers := w.past.workers + {id}));
    }
  }

  // ---------- steps that only move the worker ----------

  lemma MoveKeeps(c: Config, w: World, id: Guid, phase: Phase)
    requires Inv(c, w) && id in w.workers
    requires WorkerFits(c, w.jobs, id, w.workers[id].(phase := phase), w.store, w.past)
    ensures Inv(c, Move(w, id, phase))
  {
  }

  lemma LeaveKeeps(c: Config, w: World, id: Guid)
    requires Inv(c, w) && id in w.workers
    ensures Inv(c, Move(w, id, Leaving))
  {
    assert WorkerFits(c, w.jobs, id, w.workers[id], w.store, w.past);
    MoveKeeps(c, w, id, Leaving);
  }

  lemma ReadRowKeeps(c: Config, w: World, id: Guid)
    requires Inv(c, w)
    ensures Inv(c, ApplyReadRow(w, id))
  {
    if id in w.workers && w.workers[id].phase.Idle? {
      assert WorkerFits(c, w.jobs, id, w.workers[id], w.store, w.past);
      var j := w.workers[id].job;
      if j in w.jobs && OwnedBy(w.jobs[j], id) {
        MoveKeeps(c, w, id, GotRow(w.jobs[j].revision, w.jobs[j].mode));
      } else {
        LeaveKeeps(c, w, id);
      }
    }
  }

  lemma ReadItemsKeeps(c: Config, w: World, id: Guid)
    requires Inv(c, w)
    ensures Inv(c, ApplyReadItems(w, id))
  {
    if id in w.workers && w.workers[id].phase.GotRow? {
      assert WorkerFits(c, w.jobs, id, w.workers[id], w.store, w.past);
      var j, p := w.workers[id].job, w.workers[id].phase;
      MoveKeeps(c, w, id, GotItems(p.revision, p.mode, if j in w.jobs then w.jobs[j].items else map[]));
    }
  }

  lemma ReadArtifactsKeeps(c: Config, w: World, id: Guid)
    requires Inv(c, w)
    ensures Inv(c, ApplyReadArtifacts(w, id))
  {
    if id in w.workers && w.workers[id].phase.GotItems? {
      assert WorkerFits(c, w.jobs, id, w.workers[id], w.store, w.past);
      var j, p := w.workers[id].job, w.workers[id].phase;
      MoveKeeps(c, w, id, Planning(p.revision, p.mode, p.items, if j in w.jobs then w.jobs[j].artifacts else map[]));
    }
  }

  lemma CrashKeeps(c: Config, w: World, id: Guid)
    requires Inv(c, w)
    ensures Inv(c, w.(workers := w.workers - {id}))
  {
  }

  lemma ConcludeKeeps(c: Config, w: World, id: Guid)
    requires Inv(c, w)
    ensures Inv(c, ApplyConclude(w, id)) && Inv(c, ApplyFailBundle(w, id))
  {
    if id in w.workers {
      assert WorkerFits(c, w.jobs, id, w.workers[id], w.store, w.past);
      var j, p := w.workers[id].job, w.workers[id].phase;
      if p.Planning? && NothingQueued(p.items) && !WantsBundle(p) {
        var next := Concluding(p.revision, Verdict(p.items), None);
        if j in w.jobs && Owns(w.jobs[j], p.revision, id) {
          SameBundles(p.artifacts, w.jobs[j].artifacts, p.revision);
          assert PhaseFits(c, j, w.jobs[j], p, w.store);
          if p.mode.Bulk? && Successes(p.items) == {} {
            forall i | i in p.items ensures !p.items[i].state.Succeeded? { assert i !in Successes(p.items); }
          }
        }
        MoveKeeps(c, w, id, next);
      } else if p.Zipping? || p.Zipped? {
        MoveKeeps(c, w, id, Concluding(p.revision, JobState.Failed, Some("bundle_failed")));
      }
    }
  }

  // ---------- a rendering attempt ----------

  lemma StartedFits(p: Job, i: Guid, a: Guid, limits: Limits, now: Instant)
    requires JobFits(p) && p.state.Running? && i in p.items && p.items[i].state.Queued? && a !in p.artifacts
    ensures var q := Started(p, i, a, limits, now);
      && SameOutput(p, q) && ItemsFit(q) && (NoneRunning(p.items) ==> OnlyRunning(q.items, i))
      && (forall k | k in p.items :: HoldsUnit(q, k) <==> HoldsUnit(p, k))
  {
  }

  lemma StartedWorker(c: Config, jobs: map<Guid, Job>, id: Guid, worker: Worker, store: map<BlobKey, Blob>,
                      past: History, i: Guid, a: Guid, now: Instant)
    requires WorkerFits(c, jobs, id, worker, store, past) && worker.phase.Planning? && a !in past.artifacts
    requires worker.job in jobs && Owns(jobs[worker.job], worker.phase.revision, id)
    requires HomeOf(worker.job, jobs[worker.job], past) && JobFits(jobs[worker.job])
    requires i in worker.phase.items && worker.phase.items[i].state.Queued?
    ensures i in jobs[worker.job].items
    ensures var j, p := worker.job, jobs[worker.job];
      var q := Started(p, i, a, c.limits, now);
      var past' := past.(artifacts := past.artifacts[a := ArtifactOrigin(j, Some(i), id)]);
      && SameOutput(p, q) && ItemsFit(q) && NewRows(j, p, q, past, past')
      && (forall k | k in p.items :: HoldsUnit(q, k) <==> HoldsUnit(p, k))
      && WorkerFits(c, jobs[j := q], id, Worker(j, Rendering(worker.phase.revision, i, a)), store, past')
  {
    StartedFits(jobs[worker.job], i, a, c.limits, now);
  }

  lemma StartItemCommits(c: Config, w: World, at: Instant, id: Guid, i: Guid, a: Guid)
    requires Inv(c, w) && w.clock <= at && a !in w.past.artifacts
    requires id in w.workers && w.workers[id].phase.Planning? && Holds(w, id, w.workers[id].phase.revision)
    requires i in w.workers[id].phase.items && w.workers[id].phase.items[i].state.Queued?
    ensures Inv(c, ApplyStartItem(c, w, at, id, i, a))
  {
    hide SweepsFit, SweepFits, BytesFit, BytesOf, OutboxFits, FilesFit, AcksFit, BundlesFit, BundleOf, OffersFit, LedgerFits;
    var j, phase := w.workers[id].job, w.workers[id].phase;
    assert JobFits(w.jobs[j]) && HomeOf(j, w.jobs[j], w.past);
    StartedWorker(c, w.jobs, id, w.workers[id], w.store, w.past, i, a, at);
    var q, worker := Started(w.jobs[j], i, a, c.limits, at), Worker(j, Rendering(phase.revision, i, a));
    var past' := w.past.(artifacts := w.past.artifacts[a := ArtifactOrigin(j, Some(i), id)]);
    WorkerCommit(c, w, at, j, q, id, worker, past');
    assert ApplyStartItem(c, w, at, id, i, a) == Commit(c, w, at, j, q).(workers := w.workers[id := worker], past := past');
  }

  lemma StartItemKeeps(c: Config, w: World, at: Instant, id: Guid, i: Guid, a: Guid)
    requires Inv(c, w) && w.clock <= at
    ensures Inv(c, ApplyStartItem(c, w, at, id, i, a))
  {
    if id in w.workers && w.workers[id].phase.Planning? && a !in w.past.artifacts
       && i in w.workers[id].phase.items && w.workers[id].phase.items[i].state.Queued? {
      if Holds(w, id, w.workers[id].phase.revision) {
        StartItemCommits(c, w, at, id, i, a);
      } else {
        LeaveKeeps(c, w, id);
      }
    }
  }

  // ---------- bytes written by a worker ----------

  /** A worker's own unfinished artifact is nobody else's bytes and no ready output. */
  lemma WriteBytes(c: Config, w: World, id: Guid, blob: Blob)
    requires Inv(c, w) && id in w.workers && Produces(w.workers[id].phase)
    ensures BytesFit(c, w.jobs, w.store[ReportKey(c.tenant, w.workers[id].job, w.workers[id].phase.artifact) := blob],
                     w.files, w.filesPurged)
  {
    hide SweepsFit, SweepFits, OutboxFits, FilesFit, AcksFit, BundlesFit, BundleOf, OffersFit, LedgerFits, JobFits, SuccessesFit;
    var store' := w.store[ReportKey(c.tenant, w.workers[id].job, w.workers[id].phase.artifact) := blob];
    assert WorkerFits(c, w.jobs, id, w.workers[id], w.store, w.past);
    forall k | k in w.jobs ensures BytesOf(c, k, w.jobs[k], store', w.files, w.filesPurged) {
      assert BytesOf(c, k, w.jobs[k], w.store, w.files, w.filesPurged);
    }
  }

  lemma WriteKeeps(c: Config, w: World, id: Guid, phase: Phase, blob: Blob)
    requires Inv(c, w) && id in w.workers && Produces(w.workers[id].phase)
    requires var worker := w.workers[id];
      WorkerFits(c, w.jobs, id, worker.(phase := phase),
                 w.store[ReportKey(c.tenant, worker.job, worker.phase.artifact) := blob], w.past)
    ensures var worker := w.workers[id];
      Inv(c, Move(w, id, phase).(store := w.store[ReportKey(c.tenant, worker.job, worker.phase.artifact) := blob]))
  {
    hide JobsFit, HomesFit, SweepsFit, OutboxFits, FilesFit, AcksFit, BundlesFit, OffersFit, LedgerFits, SuccessesFit, BytesFit, WorkerFits;
    WriteBytes(c, w, id, blob);
    var store' := w.store[ReportKey(c.tenant, w.workers[id].job, w.workers[id].phase.artifact) := blob];
    assert WorkerFits(c, w.jobs, id, w.workers[id], w.store, w.past);
    forall k | k in w.workers && k != id ensures WorkerFits(c, w.jobs, k, w.workers[k], store', w.past) {
      OtherWriter(c, w.jobs, id, w.workers[id], k, w.workers[k], w.store, store', w.past);
    }
  }

  lemma OtherWriter(c: Config, jobs: map<Guid, Job>, id: Guid, writer: Worker, k: Guid, worker: Worker,
                    store: map<BlobKey, Blob>, store': map<BlobKey, Blob>, past: History)
    requires k != id && WorkerFits(c, jobs, id, writer, store, past) && WorkerFits(c, jobs, k, worker, store, past)
    requires Produces(writer.phase)
    requires forall key | key != ReportKey(c.tenant, writer.job, writer.phase.artifact) ::
               (key in store <==> key in store') && (key in store ==> store[key] == store'[key])
    ensures WorkerFits(c, jobs, k, worker, store', past)
  {
    if Produces(worker.phase) {
      assert worker.phase.artifact != writer.phase.artifact;
    }
  }

  lemma RenderKeeps(c: Config, w: World, id: Guid, outcome: Outcome, wrote: bool)
    requires Inv(c, w)
    ensures Inv(c, ApplyRender(c, w, id, outcome, wrote))
  {
    hide JobsFit, HomesFit, SweepsFit, BytesFit, OutboxFits, FilesFit, AcksFit, BundlesFit, OffersFit, LedgerFits, SuccessesFit;
    if id in w.workers && w.workers[id].phase.Rendering? && (outcome.Rendered? ==> outcome.bytes > 0 && wrote) {
      assert WorkerFits(c, w.jobs, id, w.workers[id], w.store, w.past);
      var p := w.workers[id].phase;
      var next := Settling(p.revision, p.item, p.artifact, outcome);
      if wrote {
        WriteKeeps(c, w, id, next, Pdf(p.item));
        assert ApplyRender(c, w, id, outcome, wrote)
            == Move(w, id, next).(store := w.store[ReportKey(c.tenant, w.workers[id].job, p.artifact) := Pdf(p.item)]);
      } else {
        MoveKeeps(c, w, id, next);
        assert Move(w, id, next) == ApplyRender(c, w, id, outcome, wrote);
      }
    }
  }

  // ---------- settling an item ----------

  /** The attempt a worker settles: its item alone is running, its artifact is not ready. */
  ghost predicate Attempt(p: Job, i: Guid, a: Guid, outcome: Outcome) {
    && p.state.Running? && OnlyRunning(p.items, i)
    && a in p.artifacts && p.artifacts[a].item == Some(i) && !p.artifacts[a].ready
    && (outcome.Rendered? ==> outcome.bytes > 0)
  }

  lemma SettledPdfs(p: Job, i: Guid, a: Guid, outcome: Outcome, now: Instant)
    requires JobFits(p) && Attempt(p, i, a, outcome)
    ensures forall b, k :: ReadyPdf(SettledJob(p, i, a, outcome, now), b, k) <==>
                           ReadyPdf(p, b, k) || (outcome.Rendered? && b == a && k == i)
    ensures forall b, r :: ReadyZip(SettledJob(p, i, a, outcome, now), b, r) <==> ReadyZip(p, b, r)
    ensures forall b :: !ReadyPdf(p, b, i)
  {
  }

  lemma SettledFits(p: Job, i: Guid, a: Guid, outcome: Outcome, now: Instant)
    requires JobFits(p) && Attempt(p, i, a, outcome)
    ensures var q := SettledJob(p, i, a, outcome, now); JobFits(q) && NoneRunning(q.items)
  {
    var q := SettledJob(p, i, a, outcome, now);
    SettledPdfs(p, i, a, outcome, now);
    forall k | k in q.items && q.items[k].state.Succeeded? ensures exists b :: ReadyPdf(q, b, k) {
      if k == i {
        assert ReadyPdf(q, a, k);
      } else {
        var b :| ReadyPdf(p, b, k);
        assert ReadyPdf(q, b, k);
      }
    }
  }

  /** Success consumes the item's unit, failure returns it. */
  lemma SettledLedger(jobs: map<Guid, Job>, ledger: map<Guid, Entry>, past: History, j: Guid, i: Guid, a: Guid,
                      outcome: Outcome, now: Instant)
    requires HomesFit(jobs, past) && LedgerFits(jobs, ledger, past.itemHome)
    requires j in jobs && Attempt(jobs[j], i, a, outcome)
    ensures LedgerFits(jobs[j := SettledJob(jobs[j], i, a, outcome, now)], Settled(ledger, i, outcome.Rendered?), past.itemHome)
  {
    assert LedgerOf(ledger, j, jobs[j]);
    LedgerUpdate(jobs, ledger, past, j, SettledJob(jobs[j], i, a, outcome, now), Settled(ledger, i, outcome.Rendered?));
  }

  lemma SettledSuccesses(jobs: map<Guid, Job>, past: History, j: Guid, i: Guid, a: Guid, outcome: Outcome, now: Instant)
    requires SuccessesFit(jobs, past) && j in jobs && HomeOf(j, jobs[j], past) && Attempt(jobs[j], i, a, outcome)
    ensures var past' := if outcome.Rendered? then past.(successes := past.successes + multiset{i}) else past;
      SuccessesFit(jobs[j := SettledJob(jobs[j], i, a, outcome, now)], past')
  {
    assert i !in past.successes;
  }

  lemma SettledBundles(jobs: map<Guid, Job>, past: History, j: Guid, i: Guid, a: Guid, outcome: Outcome, now: Instant)
    requires BundlesFit(jobs, past) && j in jobs && JobFits(jobs[j]) && Attempt(jobs[j], i, a, outcome)
    ensures var past' := if outcome.Rendered? then past.(successes := past.successes + multiset{i}) else past;
      BundlesFit(jobs[j := SettledJob(jobs[j], i, a, outcome, now)], past')
    ensures forall b :: !ReadyZip(jobs[j], b, jobs[j].revision)
  {
    SettledPdfs(jobs[j], i, a, outcome, now);
    assert BundleOf(j, jobs[j], past.bundles);
    assert !NoneOpen(jobs[j].items);
  }

  lemma SettledBytes(c: Config, jobs: map<Guid, Job>, past: History, j: Guid, i: Guid, a: Guid, outcome: Outcome, now: Instant,
                     store: map<BlobKey, Blob>, files: map<Guid, FileRow>, purged: bool)
    requires BytesFit(c, jobs, store, files, purged) && BundlesFit(jobs, past)
    requires j in jobs && JobFits(jobs[j]) && Attempt(jobs[j], i, a, outcome)
    requires outcome.Rendered? ==> Stored(store, ReportKey(c.tenant, j, a), Pdf(i))
    ensures BytesOf(c, j, SettledJob(jobs[j], i, a, outcome, now), store, files, purged)
  {
    SettledPdfs(jobs[j], i, a, outcome, now);
    SettledBundles(jobs, past, j, i, a, outcome, now);
    assert BytesOf(c, j, jobs[j], store, files, purged);
  }

  lemma SettlingWorker(c: Config, jobs: map<Guid, Job>, id: Guid, worker: Worker, store: map<BlobKey, Blob>, past: History)
    requires WorkerFits(c, jobs, id, worker, store, past) && worker.phase.Settling?
    requires worker.job in jobs && Owns(jobs[worker.job], worker.phase.revision, id) && HomeOf(worker.job, jobs[worker.job], past)
    ensures var p := worker.phase;
      && Attempt(jobs[worker.job], p.item, p.artifact, p.outcome) && past.artifacts[p.artifact].worker == id
      && (p.outcome.Rendered? ==> Stored(store, ReportKey(c.tenant, worker.job, p.artifact), Pdf(p.item)))
  {
  }

  lemma SettledWorkers(c: Config, jobs: map<Guid, Job>, workers: map<Guid, Worker>, store: map<BlobKey, Blob>,
                       past: History, past': History, id: Guid, now: Instant)
    requires WorkersFit(c, jobs, workers, store, past) && id in workers && workers[id].phase.Settling?
    requires workers[id].job in jobs && Owns(jobs[workers[id].job], workers[id].phase.revision, id)
    requires JobFits(jobs[workers[id].job]) && HomeOf(workers[id].job, jobs[workers[id].job], past) && PastGrows(past, past')
    ensures var j, phase := workers[id].job, workers[id].phase;
      var p := jobs[j];
      && Attempt(p, phase.item, phase.artifact, phase.outcome)
      && WorkersFit(c, jobs[j := SettledJob(p, phase.item, phase.artifact, phase.outcome, now)],
                    workers[id := Worker(j, Idle)], store, past')
  {
    var j, phase := workers[id].job, workers[id].phase;
    SettlingWorker(c, jobs, id, workers[id], store, past);
    SettledFits(jobs[j], phase.item, phase.artifact, phase.outcome, now);
    var q := SettledJob(jobs[j], phase.item, phase.artifact, phase.outcome, now);
    WorkersUpdate(c, jobs, workers, store, past, past', j, q, id, Worker(j, Idle));
  }

  lemma SettledRest(clock: Instant, p: Job, i: Guid, a: Guid, outcome: Outcome, now: Instant, j: Guid, past: History, past': History,
                    files: map<Guid, FileRow>, purged: bool)
    requires Attempt(p, i, a, outcome) && clock <= now && HomeOf(j, p, past) && FlagsOf(p, files, purged)
    requires past'.jobs == past.jobs && past'.itemHome == past.itemHome && past'.artifacts == past.artifacts
    ensures var q := SettledJob(p, i, a, outcome, now);
      && HomeOf(j, q, past') && FlagsOf(q, files, purged) && OffersBundle(now, q)
      && SweepSafe(clock, p, now, q) && ReadyKept(p, q, past.artifacts)
  {
  }

  lemma SettleShape(c: Config, w: World, at: Instant, id: Guid)
    requires id in w.workers && w.workers[id].phase.Settling? && Holds(w, id, w.workers[id].phase.revision)
    requires var j, phase := w.workers[id].job, w.workers[id].phase;
      phase.item in w.jobs[j].items && phase.artifact in w.jobs[j].artifacts
    ensures var j, phase := w.workers[id].job, w.workers[id].phase;
      ApplySettle(c, w, at, id)
      == Commit(c, w, at, j, SettledJob(w.jobs[j], phase.item, phase.artifact, phase.outcome, at))
         .(ledger := Settled(w.ledger, phase.item, phase.outcome.Rendered?),
         workers := w.workers[id := Worker(j, Idle)],
         past := if phase.outcome.Rendered? then w.past.(successes := w.past.successes + multiset{phase.item}) else w.past)
  {
    hide SettledJob, Settled, NewlyReady;
  }

  lemma SettleCommits(c: Config, w: World, at: Instant, id: Guid)
    requires Inv(c, w) && w.clock <= at && id in w.workers && w.workers[id].phase.Settling?
    requires Holds(w, id, w.workers[id].phase.revision)
    ensures Inv(c, ApplySettle(c, w, at, id))
  {
    hide Inv, JobsFit, HomesFit, LedgerFits, SuccessesFit, BundlesFit, OffersFit, WorkersFit, SweepsFit, BytesFit, OutboxFits,
      FilesFit, AcksFit, JobFits, HomeOf, OffersBundle, SweepSafe, BytesOf, ReadyKept, FlagsOf, WorkerFits;
    Tables(c, w);
    var j, phase := w.workers[id].job, w.workers[id].phase;
    var p, i, a, outcome := w.jobs[j], phase.item, phase.artifact, phase.outcome;
    AtJob(c, w, j);
    AtWorker(c, w, id);
    var past' := if outcome.Rendered? then w.past.(successes := w.past.successes + multiset{i}) else w.past;
    SettlingWorker(c, w.jobs, id, w.workers[id], w.store, w.past);
    SettledWorkers(c, w.jobs, w.workers, w.store, w.past, past', id, at);
    SettledFits(p, i, a, outcome, at);
    SettledLedger(w.jobs, w.ledger, w.past, j, i, a, outcome, at);
    SettledSuccesses(w.jobs, w.past, j, i, a, outcome, at);
    SettledBundles(w.jobs, w.past, j, i, a, outcome, at);
    SettledBytes(c, w.jobs, w.past, j, i, a, outcome, at, w.store, w.files, w.filesPurged);
    SettledRest(w.clock, p, i, a, outcome, at, j, w.past, past', w.files, w.filesPurged);
    var q := SettledJob(p, i, a, outcome, at);
    var ledger', workers' := Settled(w.ledger, i, outcome.Rendered?), w.workers[id := Worker(j, Idle)];
    SettleShape(c, w, at, id);
    CommitKeeps(c, w, at, j, q, ledger', workers', past');
    hide ApplySettle, Commit, SettledJob, Settled;
  }

  lemma SettleKeeps(c: Config, w: World, at: Instant, id: Guid)
    requires Inv(c, w) && w.clock <= at
    ensures Inv(c, ApplySettle(c, w, at, id))
  {
    if id in w.workers && w.workers[id].phase.Settling? {
      if Holds(w, id, w.workers[id].phase.revision) {
        SettleCommits(c, w, at, id);
      } else {
        LeaveKeeps(c, w, id);
      }
    }
  }

  // ---------- the bundle ----------

  lemma BundledWorker(c: Config, jobs: map<Guid, Job>, id: Guid, worker: Worker, store: map<BlobKey, Blob>,
                      past: History, a: Guid, now: Instant)
    requires WorkerFits(c, jobs, id, worker, store, past) && worker.phase.Planning? && a !in past.artifacts
    requires worker.job in jobs && Owns(jobs[worker.job], worker.phase.revision, id)
    requires HomeOf(worker.job, jobs[worker.job], past) && JobFits(jobs[worker.job])
    requires NothingQueued(worker.phase.items) && WantsBundle(worker.phase)
    ensures var j, p, phase := worker.job, jobs[worker.job], worker.phase;
      var q := WithBundle(p, a, c.limits, now);
      var past' := past.(artifacts := past.artifacts[a := ArtifactOrigin(j, None, id)]);
      && SameOutput(p, q) && ItemsFit(q) && NewRows(j, p, q, past, past')
      && (forall k | k in p.items :: HoldsUnit(q, k) <==> HoldsUnit(p, k))
      && WorkerFits(c, jobs[j := q], id, Worker(j, Zipping(phase.revision, a, phase.items, phase.artifacts)), store, past')
  {
    var p, phase := jobs[worker.job], worker.phase;
    var q := WithBundle(p, a, c.limits, now);
    SomeSucceed(phase.items);
    SameBundles(phase.artifacts, p.artifacts, phase.revision);
    assert q.artifacts - {a} == p.artifacts;
    assert !HasBundle(q.artifacts, phase.revision) by {
      forall b | b in q.artifacts ensures !(q.artifacts[b].item.None? && q.artifacts[b].ready && q.artifacts[b].revision == phase.revision) {
        assert b != a ==> b in p.artifacts;
      }
    }
  }

  lemma StartBundleCommits(c: Config, w: World, at: Instant, id: Guid, a: Guid)
    requires Inv(c, w) && w.clock <= at && a !in w.past.artifacts
    requires id in w.workers && w.workers[id].phase.Planning? && Holds(w, id, w.workers[id].phase.revision)
    requires NothingQueued(w.workers[id].phase.items) && WantsBundle(w.workers[id].phase)
    ensures Inv(c, ApplyStartBundle(c, w, at, id, a))
  {
    hide Inv, JobFits, HomeOf, FlagsOf, WorkerFits, SameOutput, ItemsFit, NewRows, HoldsUnit;
    var j, phase := w.workers[id].job, w.workers[id].phase;
    AtJob(c, w, j);
    AtWorker(c, w, id);
    OwnerKnown(c, w, j);
    BundledWorker(c, w.jobs, id, w.workers[id], w.store, w.past, a, at);
    var q, worker := WithBundle(w.jobs[j], a, c.limits, at), Worker(j, Zipping(phase.revision, a, phase.items, phase.artifacts));
    var past' := w.past.(artifacts := w.past.artifacts[a := ArtifactOrigin(j, None, id)]);
    WorkerCommit(c, w, at, j, q, id, worker, past');
    assert ApplyStartBundle(c, w, at, id, a)
        == Commit(c, w, at, j, q).(workers := w.workers[id := worker], past := past');
  }

  lemma StartBundleKeeps(c: Config, w: World, at: Instant, id: Guid, a: Guid)
    requires Inv(c, w) && w.clock <= at
    ensures Inv(c, ApplyStartBundle(c, w, at, id, a))
  {
    hide Inv;
    if id in w.workers && w.workers[id].phase.Planning? && a !in w.past.artifacts
       && NothingQueued(w.workers[id].phase.items) && WantsBundle(w.workers[id].phase) {
      if Holds(w, id, w.workers[id].phase.revision) {
        StartBundleCommits(c, w, at, id, a);
      } else {
        LeaveKeeps(c, w, id);
      }
    }
  }

  lemma OwnerKnown(c: Config, w: World, j: Guid)
    requires Inv(c, w) && j in w.jobs
    ensures w.jobs[j].owner.Some? ==> w.jobs[j].owner.value in w.past.workers
  {
  }

  /** The bundler's lookup finds exactly one ready PDF for every succeeded item. */
  lemma OnePdfEach(job: Job, a: Guid, artifacts: map<Guid, Artifact>, i: Guid)
    requires JobFits(job) && !job.state.Purging? && SameArtifacts(artifacts, job.artifacts - {a})
    requires a in job.artifacts && !job.artifacts[a].ready
    requires i in job.items && job.items[i].state.Succeeded?
    ensures exists b :: ReadyPdf(job, b, i) && b in artifacts && PdfsOf(artifacts, i) == {b}
  {
    var b :| ReadyPdf(job, b, i);
    var rest := job.artifacts - {a};
    forall d | d in artifacts ensures d in rest && artifacts[d].ready == rest[d].ready && artifacts[d].item == rest[d].item {
      SameArtifactsShare(artifacts, rest, d);
    }
    forall d | d in PdfsOf(artifacts, i) ensures d == b {
      assert ReadyPdf(job, d, i);
    }
    assert b in artifacts by { assert b in rest; }
    assert PdfsOf(artifacts, i) == {b};
  }

  /** What the owner writes into the archive is the PDF of every succeeded item and nothing else. */
  lemma ArchiveIsFull(c: Config, w: World, id: Guid)
    requires Inv(c, w) && id in w.workers && w.workers[id].phase.Zipping?
    requires Holds(w, id, w.workers[id].phase.revision)
    requires Bundleable(c, w.store, w.workers[id].job, w.workers[id].phase.items, w.workers[id].phase.artifacts)
    ensures Archive(c, w.store, w.workers[id].job, w.workers[id].phase.items, w.workers[id].phase.artifacts)
         == FullArchive(w.workers[id].phase.items)
  {
    hide JobsFit, HomesFit, LedgerFits, SuccessesFit, BundlesFit, OffersFit, SweepsFit, OutboxFits, FilesFit, AcksFit, WorkersFit;
    var j, phase := w.workers[id].job, w.workers[id].phase;
    var p := w.jobs[j];
    AtJob(c, w, j);
    AtWorker(c, w, id);
    assert BytesOf(c, j, p, w.store, w.files, w.filesPurged);
    forall i | i in Successes(phase.items)
      ensures w.store[ReportKey(c.tenant, j, TheOnly(PdfsOf(phase.artifacts, i)))] == Pdf(i)
    {
      OnePdfEach(p, phase.artifact, phase.artifacts, i);
      var b :| ReadyPdf(p, b, i) && b in phase.artifacts && PdfsOf(phase.artifacts, i) == {b};
      assert TheOnly(PdfsOf(phase.artifacts, i)) == b;
    }
  }

  lemma ZippedWorker(c: Config, jobs: map<Guid, Job>, id: Guid, worker: Worker, store: map<BlobKey, Blob>,
                     past: History, blob: Blob, bytes: int)
    requires WorkerFits(c, jobs, id, worker, store, past) && worker.phase.Zipping? && bytes > 0
    requires worker.job in jobs && Owns(jobs[worker.job], worker.phase.revision, id) ==> blob == FullArchive(worker.phase.items)
    ensures WorkerFits(c, jobs, id, worker.(phase := Zipped(worker.phase.revision, worker.phase.artifact, worker.phase.items, bytes)),
                       store[ReportKey(c.tenant, worker.job, worker.phase.artifact) := blob], past)
  {
  }

  lemma WriteBundleKeeps(c: Config, w: World, id: Guid, bytes: int)
    requires Inv(c, w)
    ensures Inv(c, ApplyWriteBundle(c, w, id, bytes))
  {
    if id in w.workers && w.workers[id].phase.Zipping? && bytes > 0
       && Bundleable(c, w.store, w.workers[id].job, w.workers[id].phase.items, w.workers[id].phase.artifacts) {
      hide Inv, WorkerFits, FullArchive, Archive, Bundleable;
      var j, phase := w.workers[id].job, w.workers[id].phase;
      AtWorker(c, w, id);
      if Holds(w, id, phase.revision) {
        ArchiveIsFull(c, w, id);
      }
      var blob := Archive(c, w.store, j, phase.items, phase.artifacts);
      var next := Zipped(phase.revision, phase.artifact, phase.items, bytes);
      ZippedWorker(c, w.jobs, id, w.workers[id], w.store, w.past, blob, bytes);
      WriteKeeps(c, w, id, next, blob);
      assert ApplyWriteBundle(c, w, id, bytes)
          == Move(w, id, next).(store := w.store[ReportKey(c.tenant, j, phase.artifact) := blob]);
    }
  }

  // ---------- a ready bundle, and the end of a run ----------

  lemma ReadiedFits(p: Job, a: Guid, bytes: int)
    requires JobFits(p) && a in p.artifacts && p.artifacts[a].item.None? && bytes > 0
    ensures var q := BundleReady(p, a, bytes);
      && JobFits(q) && (forall b, i :: ReadyPdf(q, b, i) <==> ReadyPdf(p, b, i))
      && (forall b, r :: ReadyZip(q, b, r) <==> ReadyZip(p, b, r) || (b == a && r == p.artifacts[a].revision))
  {
    var q := BundleReady(p, a, bytes);
    assert forall b, i :: ReadyPdf(q, b, i) <==> ReadyPdf(p, b, i);
  }

  /** The first ready bundle of the job's revision joins the record. */
  lemma ReadiedBundles(jobs: map<Guid, Job>, past: History, j: Guid, a: Guid, bytes: int)
    requires BundlesFit(jobs, past) && j in jobs && j in past.jobs && JobFits(jobs[j]) && bytes > 0
    requires a in jobs[j].artifacts && jobs[j].artifacts[a].item.None? && jobs[j].artifacts[a].revision == jobs[j].revision
    requires !HasBundle(jobs[j].artifacts, jobs[j].revision) && NoneOpen(jobs[j].items)
    ensures BundlesFit(jobs[j := BundleReady(jobs[j], a, bytes)],
                       past.(bundles := past.bundles + {Bundle(j, jobs[j].revision, a)}))
  {
    var p := jobs[j];
    ReadiedFits(p, a, bytes);
    assert BundleOf(j, p, past.bundles);
    assert forall b :: !ReadyZip(p, b, p.revision);
    var past' := past.(bundles := past.bundles + {Bundle(j, p.revision, a)});
    assert OneBundleEach(past'.bundles);
    forall k | k in jobs && k != j ensures BundleOf(k, jobs[k], past'.bundles) {
      assert BundleOf(k, jobs[k], past.bundles);
    }
    assert BundleOf(j, BundleReady(p, a, bytes), past'.bundles);
  }

  lemma ReadiedBytes(c: Config, jobs: map<Guid, Job>, j: Guid, a: Guid, bytes: int, store: map<BlobKey, Blob>,
                     files: map<Guid, FileRow>, purged: bool)
    requires BytesFit(c, jobs, store, files, purged) && j in jobs && JobFits(jobs[j]) && bytes > 0
    requires a in jobs[j].artifacts && jobs[j].artifacts[a].item.None? && jobs[j].artifacts[a].revision == jobs[j].revision
    requires Stored(store, ReportKey(c.tenant, j, a), FullArchive(jobs[j].items))
    ensures BytesOf(c, j, BundleReady(jobs[j], a, bytes), store, files, purged)
  {
    ReadiedFits(jobs[j], a, bytes);
    assert BytesOf(c, j, jobs[j], store, files, purged);
  }

  lemma ReadiedWorker(c: Config, jobs: map<Guid, Job>, id: Guid, worker: Worker, store: map<BlobKey, Blob>,
                      past: History, next: Phase, past': History)
    requires WorkerFits(c, jobs, id, worker, store, past) && worker.phase.Zipped? && PastGrows(past, past')
    requires worker.job in jobs && Owns(jobs[worker.job], worker.phase.revision, id) && HomeOf(worker.job, jobs[worker.job], past)
    requires next.Concluding? && next.revision == worker.phase.revision
    requires if next.error.None? then next.verdict == Verdict(worker.phase.items)
             else next.verdict.Failed? && next.error == Some("bundle_failed")
    ensures var phase, p := worker.phase, jobs[worker.job];
      && phase.artifact in p.artifacts && p.artifacts[phase.artifact].item.None?
      && p.artifacts[phase.artifact].revision == p.revision && phase.bytes > 0 && NoneOpen(p.items)
      && past.artifacts[phase.artifact].worker == id && !HasBundle(p.artifacts, p.revision)
      && Stored(store, ReportKey(c.tenant, worker.job, phase.artifact), FullArchive(p.items))
      && WorkerFits(c, jobs[worker.job := BundleReady(p, phase.artifact, phase.bytes)], id, Worker(worker.job, next), store, past')
  {
    var phase, p := worker.phase, jobs[worker.job];
    var q := BundleReady(p, phase.artifact, phase.bytes);
    assert q.artifacts[phase.artifact].ready && q.artifacts[phase.artifact].revision == phase.revision;
    assert HasBundle(q.artifacts, phase.revision);
  }

  lemma ReadiedRest(clock: Instant, p: Job, a: Guid, bytes: int, now: Instant, j: Guid, past: History, past': History,
                    files: map<Guid, FileRow>, purged: bool)
    requires a in p.artifacts && p.state.Running? && clock <= now && HomeOf(j, p, past) && FlagsOf(p, files, purged)
    requires past'.jobs == past.jobs && past'.itemHome == past.itemHome && past'.artifacts == past.artifacts
    ensures var q := BundleReady(p, a, bytes);
      && HomeOf(j, q, past') && FlagsOf(q, files, purged) && OffersBundle(now, q)
      && SweepSafe(clock, p, now, q) && ReadyKept(p, q, past.artifacts)
  {
  }

  lemma ReadyBundleShape(c: Config, w: World, at: Instant, id: Guid, confirmed: bool)
    requires id in w.workers && w.workers[id].phase.Zipped? && Holds(w, id, w.workers[id].phase.revision)
    requires w.workers[id].phase.artifact in w.jobs[w.workers[id].job].artifacts
    ensures var j, phase := w.workers[id].job, w.workers[id].phase;
      var next := if confirmed then Concluding(phase.revision, Verdict(phase.items), None)
                  else Concluding(phase.revision, JobState.Failed, Some("bundle_failed"));
      ApplyReadyBundle(c, w, at, id, confirmed)
      == Commit(c, w, at, j, BundleReady(w.jobs[j], phase.artifact, phase.bytes))
         .(ledger := w.ledger,
         workers := w.workers[id := Worker(j, next)],
         past := w.past.(bundles := w.past.bundles + {Bundle(j, phase.revision, phase.artifact)}))
  {
    hide BundleReady, NewlyReady, Verdict;
  }

  lemma ReadyBundleCommits(c: Config, w: World, at: Instant, id: Guid, confirmed: bool)
    requires Inv(c, w) && w.clock <= at && id in w.workers && w.workers[id].phase.Zipped?
    requires Holds(w, id, w.workers[id].phase.revision)
    ensures Inv(c, ApplyReadyBundle(c, w, at, id, confirmed))
  {
    hide Inv, JobsFit, HomesFit, LedgerFits, SuccessesFit, BundlesFit, OffersFit, WorkersFit, SweepsFit, BytesFit, OutboxFits,
      FilesFit, AcksFit, JobFits, HomeOf, OffersBundle, SweepSafe, BytesOf, ReadyKept, FlagsOf, WorkerFits, FullArchive, HasBundle;
    Tables(c, w);
    var j, phase := w.workers[id].job, w.workers[id].phase;
    var p, a := w.jobs[j], phase.artifact;
    AtJob(c, w, j);
    AtWorker(c, w, id);
    OwnerKnown(c, w, j);
    var next := if confirmed then Concluding(phase.revision, Verdict(phase.items), None)
                else Concluding(phase.revision, JobState.Failed, Some("bundle_failed"));
    var past' := w.past.(bundles := w.past.bundles + {Bundle(j, phase.revision, a)});
    ReadiedWorker(c, w.jobs, id, w.workers[id], w.store, w.past, next, past');
    var q, worker := BundleReady(p, a, phase.bytes), Worker(j, next);
    ReadiedFits(p, a, phase.bytes);
    ReadiedRest(w.clock, p, a, phase.bytes, at, j, w.past, past', w.files, w.filesPurged);
    InPast(c, w, j);
    ReadiedBundles(w.jobs, w.past, j, a, phase.bytes);
    ReadiedBytes(c, w.jobs, j, a, phase.bytes, w.store, w.files, w.filesPurged);
    SameUnits(w.jobs, w.ledger, w.past, j, q);
    SuccessesKeep(w.jobs, w.past, j, q, past');
    WorkersUpdate(c, w.jobs, w.workers, w.store, w.past, past', j, q, id, worker);
    ReadyBundleShape(c, w, at, id, confirmed);
    CommitKeeps(c, w, at, j, q, w.ledger, w.workers[id := worker], past');
    hide ApplyReadyBundle, Commit, BundleReady, Verdict;
  }

  lemma InPast(c: Config, w: World, j: Guid)
    requires Inv(c, w) && j in w.jobs
    ensures j in w.past.jobs
  {
    AtJob(c, w, j);
  }

  lemma ConcludingWorker(c: Config, jobs: map<Guid, Job>, id: Guid, worker: Worker, store: map<BlobKey, Blob>,
                         past: History, verdict: JobState, error: Option<string>)
    requires WorkerFits(c, jobs, id, worker, store, past) && worker.phase.Zipped?
    requires !(worker.job in jobs && Owns(jobs[worker.job], worker.phase.revision, id))
    ensures WorkerFits(c, jobs, id, worker.(phase := Concluding(worker.phase.revision, verdict, error)), store, past)
  {
  }

  lemma ReadyBundleKeeps(c: Config, w: World, at: Instant, id: Guid, confirmed: bool)
    requires Inv(c, w) && w.clock <= at
    ensures Inv(c, ApplyReadyBundle(c, w, at, id, confirmed))
  {
    if id in w.workers && w.workers[id].phase.Zipped? {
      hide Inv, WorkerFits;
      var phase := w.workers[id].phase;
      AtWorker(c, w, id);
      if Holds(w, id, phase.revision) {
        ReadyBundleCommits(c, w, at, id, confirmed);
      } else if confirmed {
        ConcludingWorker(c, w.jobs, id, w.workers[id], w.store, w.past, Verdict(phase.items), None);
        MoveKeeps(c, w, id, Concluding(phase.revision, Verdict(phase.items), None));
      } else {
        ConcludingWorker(c, w.jobs, id, w.workers[id], w.store, w.past, JobState.Failed, Some("bundle_failed"));
        MoveKeeps(c, w, id, Concluding(phase.revision, JobState.Failed, Some("bundle_failed")));
      }
    }
  }

  lemma FinishedWorker(c: Config, jobs: map<Guid, Job>, id: Guid, worker: Worker, store: map<BlobKey, Blob>, past: History, now: Instant)
    requires WorkerFits(c, jobs, id, worker, store, past) && worker.phase.Concluding?
    requires worker.job in jobs && Owns(jobs[worker.job], worker.phase.revision, id)
    requires JobFits(jobs[worker.job])
    ensures var p, phase := jobs[worker.job], worker.phase;
      var q := Finished(p.(error := phase.error), phase.verdict, c.limits, now);
      && SameOutput(p, q) && ItemsFit(q) && OffersBundle(now, q)
      && (forall k | k in p.items :: HoldsUnit(q, k) <==> HoldsUnit(p, k))
      && WorkerFits(c, jobs[worker.job := q], id, Worker(worker.job, Leaving), store, past)
  {
    var p, phase := jobs[worker.job], worker.phase;
    if phase.verdict == Verdict(p.items) && phase.verdict == CompletedWithErrors {
      assert exists i :: i in p.items && p.items[i].state.Succeeded?;
    }
  }

  lemma FinishCommits(c: Config, w: World, at: Instant, id: Guid)
    requires Inv(c, w) && w.clock <= at && id in w.workers && w.workers[id].phase.Concluding?
    requires Holds(w, id, w.workers[id].phase.revision)
    ensures Inv(c, ApplyFinish(c, w, at, id))
  {
    hide Inv, JobFits, HomeOf, FlagsOf, WorkerFits, SameOutput, ItemsFit, HoldsUnit, OffersBundle;
    var j, phase := w.workers[id].job, w.workers[id].phase;
    AtJob(c, w, j);
    AtWorker(c, w, id);
    OwnerKnown(c, w, j);
    FinishedWorker(c, w.jobs, id, w.workers[id], w.store, w.past, at);
    var q, worker := Finished(w.jobs[j].(error := phase.error), phase.verdict, c.limits, at), Worker(j, Leaving);
    WorkerCommit(c, w, at, j, q, id, worker, w.past);
    assert ApplyFinish(c, w, at, id) == Commit(c, w, at, j, q).(workers := w.workers[id := worker], past := w.past);
  }

  lemma FinishKeeps(c: Config, w: World, at: Instant, id: Guid)
    requires Inv(c, w) && w.clock <= at
    ensures Inv(c, ApplyFinish(c, w, at, id))
  {
    hide Inv;
    if id in w.workers && w.workers[id].phase.Concluding? {
      if Holds(w, id, w.workers[id].phase.revision) {
        FinishCommits(c, w, at, id);
      } else {
        LeaveKeeps(c, w, id);
      }
    }
  }

  lemma ReleasedFits(clock: Instant, p: Job, now: Instant)
    requires JobFits(p) && clock <= now
    ensures var q := LeaseReleased(p);
      && SameOutput(p, q) && ItemsFit(q) && SweepSafe(clock, p, now, q)
      && (forall k | k in p.items :: HoldsUnit(q, k) <==> HoldsUnit(p, k))
      && (OffersBundle(clock, p) ==> OffersBundle(now, q))
  {
  }

  lemma ReleasedWorker(c: Config, jobs: map<Guid, Job>, id: Guid, worker: Worker, store: map<BlobKey, Blob>, past: History, q: Job)
    requires WorkerFits(c, jobs, id, worker, store, past) && worker.phase.Leaving?
    ensures WorkerFits(c, jobs[worker.job := q], id, worker, store, past)
  {
  }

  lemma ReleaseCommits(c: Config, w: World, at: Instant, id: Guid)
    requires Inv(c, w) && w.clock <= at && id in w.workers && w.workers[id].phase.Leaving?
    requires w.workers[id].job in w.jobs && w.jobs[w.workers[id].job].owner == Some(id)
    ensures var j := w.workers[id].job; Inv(c, Commit(c, w, at, j, LeaseReleased(w.jobs[j])))
  {
    hide Inv, JobFits, HomeOf, FlagsOf, WorkerFits, SameOutput, ItemsFit, HoldsUnit, SweepSafe, OffersBundle;
    var j := w.workers[id].job;
    AtJob(c, w, j);
    AtWorker(c, w, id);
    AtOffer(c, w, j);
    var q := LeaseReleased(w.jobs[j]);
    ReleasedFits(w.clock, w.jobs[j], at);
    ReleasedWorker(c, w.jobs, id, w.workers[id], w.store, w.past, q);
    WorkerCommit(c, w, at, j, q, id, w.workers[id], w.past);
    assert w.workers[id := w.workers[id]] == w.workers;
    assert Commit(c, w, at, j, q).(workers := w.workers, past := w.past) == Commit(c, w, at, j, q);
  }

  lemma ReleaseKeeps(c: Config, w: World, at: Instant, id: Guid)
    requires Inv(c, w) && w.clock <= at
    ensures Inv(c, ApplyRelease(c, w, at, id))
  {
    hide Inv;
    if id in w.workers && w.workers[id].phase.Leaving? {
      var j := w.workers[id].job;
      if j in w.jobs && w.jobs[j].owner == Some(id) {
        ReleaseCommits(c, w, at, id);
        CrashKeeps(c, Commit(c, w, at, j, LeaseReleased(w.jobs[j])), id);
      } else {
        CrashKeeps(c, w, id);
      }
    }
  }

  lemma AtOffer(c: Config, w: World, j: Guid)
    requires Inv(c, w) && j in w.jobs
    ensures OffersBundle(w.clock, w.jobs[j])
  {
  }
}
