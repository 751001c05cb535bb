/**
 * The report-run protocol over whole runs: every world that any sequence of actions
 * can reach satisfies the invariant, and what that means for the ledger, the bundles,
 * the fences, the sweep and publication.
 */
module ReportRuns {
  import opened Basics
  import opened FileRows
  import opened ReportTypes
  import opened ReportRules
  import opened ReportWorld
  import opened ReportInvariant
  import opened ReportFrames
  import opened ReportSteps
  import opened ReportWorkers
  import opened ReportCommands
  import opened ReportPublication

  // ---------- every reachable world ----------

  lemma ItemActionKeeps(c: Config, w: World, a: Action)
    requires Inv(c, w) && Timely(w, a)
    requires a.Claim? || a.ReadRow? || a.ReadItems? || a.ReadArtifacts? || a.StartItem? || a.Render? || a.Settle?
    ensures Inv(c, Next(c, w, a))
  {
    hide Inv, ApplySubmit, ApplyCancel, ApplyRetry, ApplyClaim, ApplyReadRow, ApplyReadItems, ApplyReadArtifacts, ApplyStartItem,
      ApplyRender, ApplySettle, ApplyConclude, ApplyStartBundle, ApplyWriteBundle, ApplyFailBundle, ApplyReadyBundle, ApplyFinish,
      ApplyRelease, ApplySweepSelect, ApplySweepRepublish, ApplySweepFence, ApplySweepList, ApplySweepErase, ApplySweepDropRows,
      ApplySweepJudge, ApplySweepDropJob, ApplyPurgeReports, ApplyDeliverPublish, ApplyDeliverAck, ApplyFileAction, ApplyPurgeFiles;
    match a {
      case Claim(at, j, id) => ClaimKeeps(c, w, at, j, id);
      case ReadRow(id) => ReadRowKeeps(c, w, id);
      case ReadItems(id) => ReadItemsKeeps(c, w, id);
      case ReadArtifacts(id) => ReadArtifactsKeeps(c, w, id);
      case StartItem(at, id, i, art) => StartItemKeeps(c, w, at, id, i, art);
      case Render(id, outcome, wrote) => RenderKeeps(c, w, id, outcome, wrote);
      case Settle(at, id) => SettleKeeps(c, w, at, id);
    }
  }

  lemma ClosingActionKeeps(c: Config, w: World, a: Action)
    requires Inv(c, w) && Timely(w, a)
    requires a.Conclude? || a.StartBundle? || a.WriteBundle? || a.FailBundle? || a.ReadyBundle? || a.Finish? || a.Abandon?
          || a.Release? || a.Crash?
    ensures Inv(c, Next(c, w, a))
  {
    hide Inv, ApplySubmit, ApplyCancel, ApplyRetry, ApplyClaim, ApplyReadRow, ApplyReadItems, ApplyReadArtifacts, ApplyStartItem,
      ApplyRender, ApplySettle, ApplyConclude, ApplyStartBundle, ApplyWriteBundle, ApplyFailBundle, ApplyReadyBundle, ApplyFinish,
      ApplyRelease, ApplySweepSelect, ApplySweepRepublish, ApplySweepFence, ApplySweepList, ApplySweepErase, ApplySweepDropRows,
      ApplySweepJudge, ApplySweepDropJob, ApplyPurgeReports, ApplyDeliverPublish, ApplyDeliverAck, ApplyFileAction, ApplyPurgeFiles;
    match a {
      case Conclude(id) => ConcludeKeeps(c, w, id);
      case StartBundle(at, id, art) => StartBundleKeeps(c, w, at, id, art);
      case WriteBundle(id, bytes) => WriteBundleKeeps(c, w, id, bytes);
      case FailBundle(id) => ConcludeKeeps(c, w, id);
      case ReadyBundle(at, id, confirmed) => ReadyBundleKeeps(c, w, at, id, confirmed);
      case Finish(at, id) => FinishKeeps(c, w, at, id);
      case Abandon(id) => if id in w.workers { LeaveKeeps(c, w, id); }
      case Release(at, id) => ReleaseKeeps(c, w, at, id);
      case Crash(id) => CrashKeeps(c, w, id);
    }
  }

  lemma WorkerActionKeeps(c: Config, w: World, a: Action)
    requires Inv(c, w) && Timely(w, a) && ByWorker(a)
    ensures Inv(c, Next(c, w, a))
  {
    hide Inv, Next;
    if a.Claim? || a.ReadRow? || a.ReadItems? || a.ReadArtifacts? || a.StartItem? || a.Render? || a.Settle? {
      ItemActionKeeps(c, w, a);
    } else {
      ClosingActionKeeps(c, w, a);
    }
  }

  lemma PassActionKeeps(c: Config, w: World, a: Action)
    requires Inv(c, w) && Timely(w, a) && (a.SweepSelect? || a.SweepFence?)
    ensures Inv(c, Next(c, w, a))
  {
    hide Inv, ApplySweepSelect, ApplySweepFence;
    match a {
      case SweepSelect(at, s, j) => SweepSelectKeeps(c, w, at, s, j);
      case SweepFence(at, s) => SweepFenceKeeps(c, w, at, s);
    }
  }

  lemma IdleActionKeeps(c: Config, w: World, a: Action)
    requires Inv(c, w) && (a.SweepRepublish? || a.SweepAbort?)
    ensures Inv(c, Next(c, w, a))
  {
    hide Inv, ApplySweepRepublish;
    match a {
      case SweepRepublish(s) => SweepRepublishKeeps(c, w, s);
      case SweepAbort(s) => SweepAbortKeeps(c, w, s);
    }
  }

  lemma CleaningActionKeeps(c: Config, w: World, a: Action)
    requires Inv(c, w) && (a.SweepList? || a.SweepErase? || a.SweepDropRows? || a.SweepJudge? || a.SweepDropJob?)
    ensures Inv(c, Next(c, w, a))
  {
    hide Inv, ApplySweepList, ApplySweepErase, ApplySweepDropRows, ApplySweepJudge, ApplySweepDropJob;
    match a {
      case SweepList(s) => SweepListKeeps(c, w, s);
      case SweepErase(s, art) => SweepEraseKeeps(c, w, s, art);
      case SweepDropRows(s) => SweepDropRowsKeeps(c, w, s);
      case SweepJudge(s) => SweepJudgeKeeps(c, w, s);
      case SweepDropJob(s) => SweepDropJobKeeps(c, w, s);
    }
  }

  lemma SweepActionKeeps(c: Config, w: World, a: Action)
    requires Inv(c, w) && Timely(w, a) && BySweep(a)
    ensures Inv(c, Next(c, w, a))
  {
    hide Inv, Next, Timely;
    if a.SweepSelect? || a.SweepFence? {
      PassActionKeeps(c, w, a);
    } else if a.SweepRepublish? || a.SweepAbort? {
      IdleActionKeeps(c, w, a);
    } else {
      CleaningActionKeeps(c, w, a);
    }
  }

  lemma UserActionKeeps(c: Config, w: World, a: Action)
    requires Inv(c, w) && RetriesFit(w) && LimitsOk(c.limits) && Timely(w, a)
    requires a.Submit? || a.Cancel? || a.ReadRetry? || a.Retry? || a.AbortRetry?
    ensures Inv(c, Next(c, w, a))
  {
    hide Inv, RetriesFit, LimitsOk, ApplySubmit, ApplyCancel, ApplyReadRetry, ApplyRetry;
    match a {
      case Submit(at, j, user, mode, sites, items, month, quota) => SubmitKeeps(c, w, at, j, user, mode, sites, items, month, quota);
      case Cancel(at, j, user) => CancelKeeps(c, w, at, j, user);
      case ReadRetry(at, r, j, user) => ReadRetryKeeps(c, w, at, r, j, user);
      case Retry(at, r, month, quota) => RetryKeeps(c, w, at, r, month, quota);
      case AbortRetry(r) => RetriesAside(c, w, w.retries - {r});
    }
  }

  lemma StorageActionKeeps(c: Config, w: World, a: Action)
    requires Inv(c, w) && Timely(w, a)
    requires a.PurgeReports? || a.DeliverPublish? || a.DeliverAck? || a.FileAction? || a.PurgeFiles?
    ensures Inv(c, Next(c, w, a))
  {
    hide Inv, ApplyPurgeReports, ApplyDeliverPublish, ApplyDeliverAck, ApplyFileAction, ApplyPurgeFiles;
    match a {
      case PurgeReports(at) => PurgeReportsKeeps(c, w, at);
      case DeliverPublish(m) => DeliverPublishKeeps(c, w, m);
      case DeliverAck(id) => DeliverAckKeeps(c, w, id);
      case FileAction(at, id, op) => FileActionKeeps(c, w, at, id, op);
      case PurgeFiles => PurgeFilesKeeps(c, w);
    }
  }

  lemma OtherActionKeeps(c: Config, w: World, a: Action)
    requires Inv(c, w) && RetriesFit(w) && LimitsOk(c.limits) && Timely(w, a) && !ByWorker(a) && !BySweep(a)
    ensures Inv(c, Next(c, w, a))
  {
    hide Inv, RetriesFit, Next, Timely, LimitsOk;
    if a.Submit? || a.Cancel? || a.ReadRetry? || a.Retry? || a.AbortRetry? {
      UserActionKeeps(c, w, a);
    } else {
      StorageActionKeeps(c, w, a);
    }
  }

  /** Every action keeps the invariant, whoever takes it and whenever. */
  lemma NextKeeps(c: Config, w: World, a: Action)
    requires Inv(c, w) && RetriesFit(w) && LimitsOk(c.limits)
    ensures Inv(c, Next(c, w, a)) && RetriesFit(Next(c, w, a))
  {
    Tables(c, w);
    assert Known(w);
    hide Inv, RetriesFit, Next, LimitsOk, SweepsFit;
    RetriesFitNext(c, w, a);
    if !Timely(w, a) {
      assert Next(c, w, a) == w by { UntimelyIsNothing(c, w, a); }
    } else if ByWorker(a) {
      WorkerActionKeeps(c, w, a);
    } else if BySweep(a) {
      SweepActionKeeps(c, w, a);
    } else {
      OtherActionKeeps(c, w, a);
    }
  }

  lemma UntimelyIsNothing(c: Config, w: World, a: Action)
    requires !Timely(w, a)
    ensures Next(c, w, a) == w
  {
  }

  lemma SweepAbortKeeps(c: Config, w: World, s: Guid)
    requires Inv(c, w)
    ensures Inv(c, w.(sweeps := w.sweeps - {s}))
  {
  }

  lemma {:induction false} RunKeeps(c: Config, w: World, run: seq<Action>)
    requires Inv(c, w) && RetriesFit(w) && LimitsOk(c.limits)
    ensures Inv(c, Exec(c, w, run)) && RetriesFit(Exec(c, w, run))
    decreases |run|
  {
    hide Inv, RetriesFit, Next;
    if run != [] {
      RunKeeps(c, w, run[..|run| - 1]);
      NextKeeps(c, Exec(c, w, run[..|run| - 1]), run[|run| - 1]);
    }
  }

  ghost predicate Reachable(c: Config, w: World) {
    exists run :: w == Exec(c, Genesis, run)
  }

  lemma ReachableFits(c: Config, w: World)
    requires Reachable(c, w) && LimitsOk(c.limits)
    ensures Inv(c, w) && RetriesFit(w)
  {
    var run :| w == Exec(c, Genesis, run);
    assert Inv(c, Genesis) && RetriesFit(Genesis);
    hide Inv, RetriesFit;
    RunKeeps(c, Genesis, run);
  }

  lemma ReachableNext(c: Config, w: World, a: Action)
    requires Reachable(c, w)
    ensures Reachable(c, Next(c, w, a))
  {
    hide Next;
    var run :| w == Exec(c, Genesis, run);
    assert (run + [a])[..|run|] == run;
    assert Next(c, w, a) == Exec(c, Genesis, run + [a]);
  }

  // ---------- the ledger ----------

  function OpenItems(jobs: map<Guid, Job>): set<Guid> {
    set j, i | j in jobs && Active(jobs[j].state) && i in jobs[j].items && Open(jobs[j].items[i].state) :: i
  }

  function Unconsumed(ledger: map<Guid, Entry>): set<Guid> {
    set e | e in ledger && !ledger[e].consumed
  }

  function ConsumedBy(ledger: map<Guid, Entry>, j: Guid): set<Guid> {
    set e | e in ledger && ledger[e].consumed && ledger[e].job == j
  }

  lemma ReservedIsOpen(jobs: map<Guid, Job>, ledger: map<Guid, Entry>, home: map<Guid, Guid>)
    requires LedgerFits(jobs, ledger, home)
    ensures Unconsumed(ledger) == OpenItems(jobs)
  {
    forall e ensures e in Unconsumed(ledger) <==> e in OpenItems(jobs) {
      if e in ledger {
        assert EntryFits(e, ledger[e], jobs, home);
        if ledger[e].job in jobs { assert LedgerOf(ledger, ledger[e].job, jobs[ledger[e].job]); }
      }
      if e in OpenItems(jobs) {
        var j :| j in jobs && Active(jobs[j].state) && e in jobs[j].items && Open(jobs[j].items[e].state);
        assert LedgerOf(ledger, j, jobs[j]);
      }
    }
  }

  lemma ConsumedIsSucceeded(jobs: map<Guid, Job>, ledger: map<Guid, Entry>, home: map<Guid, Guid>, j: Guid)
    requires LedgerFits(jobs, ledger, home) && j in jobs && !jobs[j].state.Purging?
    ensures ConsumedBy(ledger, j) == SucceededItems(jobs[j])
  {
    assert LedgerOf(ledger, j, jobs[j]);
    forall e ensures e in ConsumedBy(ledger, j) <==> e in SucceededItems(jobs[j]) {
      if e in ledger { assert EntryFits(e, ledger[e], jobs, home); }
    }
  }

  /**
   * The reserved units are exactly the open items of queued and running jobs, and the
   * consumed units of a job that is not being purged are exactly its succeeded items.
   */
  lemma LedgerIsExact(c: Config, w: World)
    requires Reachable(c, w) && LimitsOk(c.limits)
    ensures Unconsumed(w.ledger) == OpenItems(w.jobs)
    ensures forall j | j in w.jobs && !w.jobs[j].state.Purging? :: ConsumedBy(w.ledger, j) == SucceededItems(w.jobs[j])
  {
    ReachableFits(c, w);
    Tables(c, w);
    hide Inv, LedgerFits, Unconsumed, OpenItems, ConsumedBy, SucceededItems, RetriesFit;
    ReservedIsOpen(w.jobs, w.ledger, w.past.itemHome);
    forall j | j in w.jobs && !w.jobs[j].state.Purging? ensures ConsumedBy(w.ledger, j) == SucceededItems(w.jobs[j]) {
      ConsumedIsSucceeded(w.jobs, w.ledger, w.past.itemHome, j);
    }
  }

  /** Failed and canceled items hold no unit, so a retry's reservation never meets an old entry. */
  lemma RetryNeverCollides(c: Config, w: World, j: Guid)
    requires Reachable(c, w) && LimitsOk(c.limits) && j in w.jobs
    ensures forall i | i in w.jobs[j].items && (w.jobs[j].items[i].state.Failed? || w.jobs[j].items[i].state.Canceled?) :: i !in w.ledger
    ensures FailedItems(w.jobs[j]) * w.ledger.Keys == {}
  {
    ReachableFits(c, w);
    assert LedgerOf(w.ledger, j, w.jobs[j]);
  }

  // ---------- what a run's state says about its items ----------

  /**
   * A closed run has no open item. Without an error its state is Completed exactly if all
   * items succeeded and there are some, CompletedWithErrors exactly if some did and some
   * did not, and Failed exactly if none did; the only error is that of a bulk run which
   * has successes but no bundle.
   */
  lemma StateIsTruthful(c: Config, w: World, j: Guid)
    requires Reachable(c, w) && LimitsOk(c.limits) && j in w.jobs
    ensures var job := w.jobs[j];
      && (Closed(job.state) ==> NoneOpen(job.items))
      && (job.state.Queued? ==> NoneRunning(job.items))
      && (job.error.None? && (job.state.Completed? || job.state.CompletedWithErrors? || job.state.Failed?) ==>
            && (job.state.Completed? <==> SucceededItems(job) == job.items.Keys != {})
            && (job.state.CompletedWithErrors? <==> {} < SucceededItems(job) < job.items.Keys)
            && (job.state.Failed? <==> SucceededItems(job) == {}))
      && (job.error.Some? ==>
            && (job.state.Failed? || job.state.Purging?) && job.mode.Bulk?
            && job.error == Some("bundle_failed") && SucceededItems(job) != {})
  {
    ReachableFits(c, w);
    AtJob(c, w, j);
    hide Inv, PdfsFit, ArtifactsFit, HomeOf, FlagsOf;
    var job := w.jobs[j];
    assert Successes(job.items) == SucceededItems(job);
    SomeSucceed(job.items);
    if job.state.Completed? {
      assert forall i :: i in SucceededItems(job) <==> i in job.items.Keys;
    } else if job.state.CompletedWithErrors? {
      var k :| k in job.items && !job.items[k].state.Succeeded?;
      assert k in job.items.Keys - SucceededItems(job);
    }
  }

  // ---------- one success, one PDF, one bundle ----------

  lemma SucceedsOnce(c: Config, w: World, i: Guid)
    requires Reachable(c, w) && LimitsOk(c.limits)
    ensures w.past.successes[i] <= 1
  {
    ReachableFits(c, w);
  }

  lemma SinglePdf(p: Job, i: Guid)
    requires PdfsFit(p) && !p.state.Purging? && i in p.items
    ensures if p.items[i].state.Succeeded? then exists a :: PdfsOf(p.artifacts, i) == {a} else PdfsOf(p.artifacts, i) == {}
  {
    forall a ensures a in PdfsOf(p.artifacts, i) <==> ReadyPdf(p, a, i) {
    }
    if p.items[i].state.Succeeded? {
      var a :| ReadyPdf(p, a, i);
      forall b ensures b in PdfsOf(p.artifacts, i) <==> b in {a} {
        assert ReadyPdf(p, b, i) ==> b == a;
      }
      assert PdfsOf(p.artifacts, i) == {a};
    } else {
      assert forall a :: a !in PdfsOf(p.artifacts, i);
    }
  }

  /** The bundler's and the publisher's single-row lookups have exactly one row to find. */
  lemma OnePdfPerSuccess(c: Config, w: World, j: Guid, i: Guid)
    requires Reachable(c, w) && LimitsOk(c.limits)
    requires j in w.jobs && !w.jobs[j].state.Purging? && i in w.jobs[j].items
    ensures if w.jobs[j].items[i].state.Succeeded? then exists a :: PdfsOf(w.jobs[j].artifacts, i) == {a}
            else PdfsOf(w.jobs[j].artifacts, i) == {}
  {
    ReachableFits(c, w);
    AtJob(c, w, j);
    SinglePdf(w.jobs[j], i);
  }

  lemma OneBundlePerRevision(c: Config, w: World, a: Guid, b: Guid, j: Guid, revision: int)
    requires Reachable(c, w) && LimitsOk(c.limits)
    requires Bundle(j, revision, a) in w.past.bundles && Bundle(j, revision, b) in w.past.bundles
    ensures a == b
  {
    ReachableFits(c, w);
  }

  /** A run never has two ready bundles at its current revision. */
  lemma OneReadyBundle(c: Config, w: World, j: Guid, a: Guid, b: Guid)
    requires Reachable(c, w) && LimitsOk(c.limits) && j in w.jobs
    requires ReadyZip(w.jobs[j], a, w.jobs[j].revision) && ReadyZip(w.jobs[j], b, w.jobs[j].revision)
    ensures a == b
  {
    ReachableFits(c, w);
    Tables(c, w);
    hide Inv;
    assert BundleOf(j, w.jobs[j], w.past.bundles);
    OneBundlePerRevision(c, w, a, b, j, w.jobs[j].revision);
  }

  function ReadyPdfs(job: Job): set<Guid> {
    set a | a in job.artifacts && job.artifacts[a].ready && job.artifacts[a].item.Some?
  }

  /** Storage's answer: there are some files, and each is a clean one of Reporting's. */
  predicate AreClean(files: map<Guid, FileRow>, ids: set<Guid>) {
    ids != {} && forall id | id in ids :: id in files && files[id].origin == Some("report") && files[id].status.Clean?
  }

  /** How many seconds a download link may live: a minute at most, and never past the run's expiry. */
  function LinkSeconds(job: Job, now: Instant): int {
    if job.expiresAt.Some? && job.expiresAt.value - now < 60 then job.expiresAt.value - now else 60
  }

  /** The checks of the bundle's download route, up to authorization. */
  predicate Served(w: World, j: Guid, a: Guid, now: Instant) {
    && j in w.jobs && a in w.jobs[j].artifacts && !w.jobs[j].state.Purging?
    && w.jobs[j].artifacts[a].item.None? && w.jobs[j].artifacts[a].ready
    && w.jobs[j].artifacts[a].revision == w.jobs[j].revision
    && !Due(w.jobs[j].expiresAt, now)
    && (w.jobs[j].expiresAt.None? ==> Active(w.jobs[j].state))
    && SucceededItems(w.jobs[j]) != {}
    && AreClean(w.files, ReadyPdfs(w.jobs[j]))
    && LinkSeconds(w.jobs[j], now) >= 1
  }

  /** What a download serves is the archive of exactly the PDFs of the run's succeeded items. */
  lemma DownloadIsExact(c: Config, w: World, j: Guid, a: Guid, now: Instant)
    requires Reachable(c, w) && LimitsOk(c.limits) && Served(w, j, a, now)
    ensures ReportKey(c.tenant, j, a) in w.store
    ensures w.store[ReportKey(c.tenant, j, a)] == Zip(map i | i in SucceededItems(w.jobs[j]) :: Pdf(i))
  {
    ReachableFits(c, w);
    assert BytesOf(c, j, w.jobs[j], w.store, w.files, w.filesPurged);
    assert ReadyZip(w.jobs[j], a, w.jobs[j].revision);
    assert SucceededItems(w.jobs[j]) == Successes(w.jobs[j].items);
  }

  /** A link lives at least a second and at most a minute, never past the run's expiry, and leads to clean PDFs only. */
  lemma LinkEndsInTime(w: World, j: Guid, a: Guid, now: Instant)
    requires Served(w, j, a, now)
    ensures 1 <= LinkSeconds(w.jobs[j], now) <= 60
    ensures w.jobs[j].expiresAt.Some? ==> now + LinkSeconds(w.jobs[j], now) <= w.jobs[j].expiresAt.value
    ensures !w.jobs[j].state.Purging?
    ensures exists i :: i in w.jobs[j].items && w.jobs[j].items[i].state.Succeeded?
    ensures forall p | p in w.jobs[j].artifacts && w.jobs[j].artifacts[p].ready && w.jobs[j].artifacts[p].item.Some? ::
              p in w.files && w.files[p].status.Clean?
  {
    assert forall p | p in w.jobs[j].artifacts && w.jobs[j].artifacts[p].ready && w.jobs[j].artifacts[p].item.Some? ::
        p in ReadyPdfs(w.jobs[j]);
    assert SucceededItems(w.jobs[j]) == Successes(w.jobs[j].items);
    SomeSucceed(w.jobs[j].items);
  }

  /** A bulk run that reports completion has a bundle, and serves it until it expires exactly while Storage has all its PDFs clean. */
  lemma CompletedBulkIsServed(c: Config, w: World, j: Guid)
    requires Reachable(c, w) && LimitsOk(c.limits) && j in w.jobs && w.jobs[j].mode.Bulk?
    requires w.jobs[j].state.Completed? || w.jobs[j].state.CompletedWithErrors?
    requires After(w.jobs[j].expiresAt, w.clock)
    ensures (exists a :: Served(w, j, a, w.clock)) <==> AreClean(w.files, ReadyPdfs(w.jobs[j]))
  {
    ReachableFits(c, w);
    AtOffer(c, w, j);
    AtJob(c, w, j);
    hide Inv, PdfsFit, ArtifactsFit, HomeOf, FlagsOf, AreClean, ReadyPdfs, Reachable;
    var p := w.jobs[j];
    var a :| a in p.artifacts && p.artifacts[a].item.None? && p.artifacts[a].ready && p.artifacts[a].revision == p.revision;
    var i :| i in p.items && p.items[i].state.Succeeded?;
    assert i in SucceededItems(p);
    if AreClean(w.files, ReadyPdfs(p)) { assert Served(w, j, a, w.clock); }
  }
}
