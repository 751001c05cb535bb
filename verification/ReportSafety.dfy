/**
 * What the protocol guarantees over whole runs: fences hold for ever, retention never
 * moves, and swept output never comes back.
 */
module ReportSafety {
  import opened Basics
  import opened FileRows
  import opened ReportTypes
  import opened ReportRules
  import opened ReportWorld
  import opened ReportInvariant
  import opened ReportFrames
  import opened ReportSteps
  import opened ReportRuns

  lemma GoneOn(w: World, w1: World, w': World, j: Guid)
    requires JobsEvolve(w1, w') && j in w.jobs && j in w1.jobs && j in w'.jobs
    requires Gone(w1.jobs[j], w1.clock) && NothingNew(w.jobs[j], w1.jobs[j]) && !Pending(w1, j)
    ensures Gone(w'.jobs[j], w'.clock) && NothingNew(w.jobs[j], w'.jobs[j]) && !Pending(w', j)
  {
    UnreadStays(w1, w', j);
    hide NoTakeover, Changes, Pending, Gone;
  }

  /** A job that exists after a run either existed before it or is new. */
  lemma {:induction false} RunEvolves(c: Config, w: World, run: seq<Action>, j: Guid)
    requires Known(w) && j in w.past.jobs
    ensures var w' := Exec(c, w, run);
      && Aged(w, w') && Known(w')
      && (j in w'.jobs ==> j in w.jobs && Changes(w.jobs[j], w'.jobs[j], w.past.workers))
      && (j in w'.jobs && Gone(w.jobs[j], w.clock) && !Pending(w, j) ==>
            Gone(w'.jobs[j], w'.clock) && NothingNew(w.jobs[j], w'.jobs[j]) && !Pending(w', j))
    decreases |run|
  {
    hide Next, Changes, StaysGone, Pending, Gone;
    if run == [] {
      if j in w.jobs { SameEvolves(w.clock, w.jobs[j], w.clock, w.past.workers); }
    } else {
      var w1, a := Exec(c, w, run[..|run| - 1]), run[|run| - 1];
      var w' := Next(c, w1, a);
      assert Exec(c, w, run) == w';
      RunEvolves(c, w, run[..|run| - 1], j);
      NextEvolves(c, w1, a);
      hide NothingNew, NoTakeover;
      if j in w'.jobs {
        assert j in w1.jobs;
        ChangesOn(w.jobs[j], w1.jobs[j], w'.jobs[j], w.past.workers, w1.past.workers);
        if Gone(w.jobs[j], w.clock) && !Pending(w, j) { GoneOn(w, w1, w', j); }
      }
    }
  }

  // ---------- fencing ----------

  /** Worker `id` no longer runs job `j`, or never did. */
  ghost predicate Lost(w: World, j: Guid, id: Guid) {
    !(j in w.jobs && OwnedBy(w.jobs[j], id))
  }

  /** A lease that was lost is never regained: every claim is a new worker. */
  lemma LostStaysLost(c: Config, w: World, run: seq<Action>, j: Guid, id: Guid)
    requires Reachable(c, w) && LimitsOk(c.limits)
    requires j in w.past.jobs && id in w.past.workers && Lost(w, j, id)
    ensures Lost(Exec(c, w, run), j, id)
  {
    ReachableFits(c, w);
    Tables(c, w);
    hide Inv, Exec;
    RunEvolves(c, w, run, j);
  }

  predicate ActsFor(a: Action, id: Guid) {
    ByWorker(a) && !a.Claim? && a.worker == id
  }

  /** The only trace a lost worker may leave: it clears a lease that still names it. */
  ghost predicate OnlyLease(jobs: map<Guid, Job>, jobs': map<Guid, Job>, j: Guid, id: Guid) {
    jobs' == jobs || (j in jobs && jobs[j].owner == Some(id) && jobs' == jobs[j := LeaseReleased(jobs[j])])
  }

  /** No output, no quota, no message, no success and no bundle comes from the step. */
  ghost predicate Barren(w: World, w': World, j: Guid, id: Guid) {
    && OnlyLease(w.jobs, w'.jobs, j, id) && w'.ledger == w.ledger && w'.outbox == w.outbox && w'.past == w.past
  }

  /** What a lost worker's step commits is at most the release of a lease that still names it. */
  lemma LostCommits(c: Config, w: World, a: Action, j: Guid, id: Guid)
    requires ActsFor(a, id) && id in w.workers && w.workers[id].job == j && Lost(w, j, id)
    ensures Committed(c, w, a).Some? ==>
              j in w.jobs && w.jobs[j].owner == Some(id) && Committed(c, w, a) == Some(Commitment(a.at, j, LeaseReleased(w.jobs[j])))
  {
    LostOwnsNothing(w, j, id);
    hide Lost, Owns, NothingQueued, WantsBundle, Claimable, Claimed, Started, SettledJob, WithBundle, BundleReady, Finished,
      LeaseReleased;
  }

  lemma LostOwnsNothing(w: World, j: Guid, id: Guid)
    requires Lost(w, j, id)
    ensures j in w.jobs ==> forall revision :: !Owns(w.jobs[j], revision, id)
  {
  }

  lemma ReleaseShape(c: Config, w: World, at: Instant, id: Guid)
    ensures ApplyRelease(c, w, at, id).ledger == w.ledger && ApplyRelease(c, w, at, id).past == w.past
  {
    hide Commit, LeaseReleased;
    if id in w.workers && w.workers[id].job in w.jobs {
      var j := w.workers[id].job;
      CommitShape(c, w.(workers := w.workers - {id}), at, j, LeaseReleased(w.jobs[j]));
    }
  }

  lemma ReleaseIsBarren(c: Config, w: World, a: Action, id: Guid)
    requires a.Release? && a.worker == id
    ensures Next(c, w, a).ledger == w.ledger && Next(c, w, a).past == w.past
  {
    ReleaseShape(c, w, a.at, a.worker);
    hide Timely, ApplyRelease;
  }

  lemma LostStep(c: Config, w: World, a: Action, j: Guid, id: Guid)
    requires ActsFor(a, id) && Timely(w, a) && id in w.workers && w.workers[id].job == j && Lost(w, j, id)
    ensures Barren(w, Next(c, w, a), j, id)
  {
    WorkerWrites(c, w, a);
    LostCommits(c, w, a, j, id);
    if Committed(c, w, a).Some? {
      OnlyReleases(c, w, a);
      ReleaseIsBarren(c, w, a, id);
      assert NewlyReady(c.tenant, j, w.jobs[j], LeaseReleased(w.jobs[j])) == {};
    }
    hide Next, Committed, NewlyReady;
  }

  /** A commitment that drops the owner is a release. */
  lemma OnlyReleases(c: Config, w: World, a: Action)
    requires Committed(c, w, a).Some? && Committed(c, w, a).value.row.owner.None?
    requires Committed(c, w, a).value.job in w.jobs && w.jobs[Committed(c, w, a).value.job].owner.Some?
    ensures a.Release?
  {
  }

  /** Whatever happened since it lost its lease, a worker commits nothing any more. */
  lemma LostWorkerCommitsNothing(c: Config, w: World, run: seq<Action>, j: Guid, id: Guid, a: Action)
    requires Reachable(c, w) && LimitsOk(c.limits)
    requires j in w.past.jobs && id in w.past.workers && Lost(w, j, id) && ActsFor(a, id)
    requires var w1 := Exec(c, w, run); id in w1.workers && w1.workers[id].job == j
    ensures var w1 := Exec(c, w, run);
      var w2 := Next(c, w1, a);
      && w2.ledger == w1.ledger && w2.outbox == w1.outbox && w2.past == w1.past
      && OnlyLease(w1.jobs, w2.jobs, j, id)
  {
    hide Exec, Next, Lost;
    LostStaysLost(c, w, run, j, id);
    var w1 := Exec(c, w, run);
    if Timely(w1, a) {
      LostStep(c, w1, a, j, id);
    } else {
      assert Next(c, w1, a) == w1 by { UntimelyIsNothing(c, w1, a); }
    }
  }

  /** A takeover, a cancellation, a retry, a sweep fence and a purge all take the job from its worker. */
  lemma FencesCut(c: Config, w: World, a: Action, j: Guid, id: Guid)
    requires id in w.past.workers && j in w.jobs && j in Next(c, w, a).jobs && Next(c, w, a).jobs[j] != w.jobs[j]
    requires a.Cancel? || a.Retry? || a.Claim? || a.SweepFence? || a.PurgeReports?
    ensures Lost(Next(c, w, a), j, id)
  {
    hide ActiveJobs, UsedIn, Released, Reserved, NewlyReady;
  }

  /**
   * So a worker whose job someone else claimed, canceled, retried, fenced or purged commits
   * nothing any more, whatever happens after that and whatever it still tries.
   */
  lemma FencedWorkerCommitsNothing(c: Config, w: World, fence: Action, j: Guid, id: Guid, run: seq<Action>, a: Action)
    requires Reachable(c, w) && LimitsOk(c.limits) && id in w.past.workers && ActsFor(a, id)
    requires fence.Cancel? || fence.Retry? || fence.Claim? || fence.SweepFence? || fence.PurgeReports?
    requires j in w.jobs && j in Next(c, w, fence).jobs && Next(c, w, fence).jobs[j] != w.jobs[j]
    requires var w1 := Exec(c, Next(c, w, fence), run); id in w1.workers && w1.workers[id].job == j
    ensures var w1 := Exec(c, Next(c, w, fence), run);
      var w2 := Next(c, w1, a);
      && w2.ledger == w1.ledger && w2.outbox == w1.outbox && w2.past == w1.past
      && OnlyLease(w1.jobs, w2.jobs, j, id)
  {
    FencesCut(c, w, fence, j, id);
    ReachableNext(c, w, fence);
    ReachableFits(c, w);
    Tables(c, w);
    hide Inv, Next, Exec, Reachable, Lost, ActsFor;
    NextEvolves(c, w, fence);
    LostWorkerCommitsNothing(c, Next(c, w, fence), run, j, id, a);
  }

  /** Whatever happens next, a job changes hands only when its lease is over. */
  lemma LiveLeaseIsExclusive(c: Config, w: World, a: Action, j: Guid)
    requires Reachable(c, w) && LimitsOk(c.limits) && j in w.jobs
    ensures var w' := Next(c, w, a);
      j in w'.jobs && w.jobs[j].owner.Some? && w'.jobs[j].owner.Some? && w'.jobs[j].owner != w.jobs[j].owner
      ==> !After(w.jobs[j].leaseUntil, w'.clock)
  {
    ReachableFits(c, w);
    Tables(c, w);
    AtJob(c, w, j);
    hide Inv, Next;
    NextEvolves(c, w, a);
  }

  // ---------- retention and the sweep ----------

  /** Retention starts once: later completions and retries never move it. */
  lemma RetentionNeverMoves(c: Config, w: World, run: seq<Action>, j: Guid)
    requires Reachable(c, w) && LimitsOk(c.limits)
    requires j in w.jobs && w.jobs[j].expiresAt.Some? && j in Exec(c, w, run).jobs
    ensures var q := Exec(c, w, run).jobs[j]; q.state.Purging? || q.expiresAt == w.jobs[j].expiresAt
  {
    ReachableFits(c, w);
    Tables(c, w);
    AtJob(c, w, j);
    hide Inv, Exec;
    RunEvolves(c, w, run, j);
  }

  /** In every reachable world a run's metadata outlives its artifacts. */
  lemma {:induction false} MetadataOutlivesArtifacts(c: Config, run: seq<Action>)
    ensures var w := Exec(c, Genesis, run);
      Known(w) && forall j | j in w.jobs :: RetentionOrdered(w.jobs[j])
    decreases |run|
  {
    hide Next, RetentionOrdered;
    if run != [] {
      var w1 := Exec(c, Genesis, run[..|run| - 1]);
      MetadataOutlivesArtifacts(c, run[..|run| - 1]);
      NextEvolves(c, w1, run[|run| - 1]);
    }
  }

  /**
   * An expired run that no open retry has read stays closed: nothing in it becomes ready
   * and nothing is added, ever.
   */
  lemma GoneForGood(c: Config, w: World, run: seq<Action>, j: Guid)
    requires Reachable(c, w) && LimitsOk(c.limits)
    requires j in w.jobs && Gone(w.jobs[j], w.clock) && !Pending(w, j) && j in Exec(c, w, run).jobs
    ensures Gone(Exec(c, w, run).jobs[j], Exec(c, w, run).clock) && NothingNew(w.jobs[j], Exec(c, w, run).jobs[j])
  {
    ReachableFits(c, w);
    Tables(c, w);
    AtJob(c, w, j);
    hide Inv, Exec, RetriesFit, Pending;
    RunEvolves(c, w, run, j);
  }

  /** A pass that is past its fence has left no retry that could still commit. */
  lemma FencedIsUnread(c: Config, w: World, s: Guid)
    requires Reachable(c, w) && LimitsOk(c.limits)
    requires s in w.sweeps && !w.sweeps[s].phase.Selected? && w.sweeps[s].job in w.jobs
    ensures Gone(w.jobs[w.sweeps[s].job], w.clock) && !Pending(w, w.sweeps[s].job)
  {
    ReachableFits(c, w);
    Tables(c, w);
    hide Inv;
    assert SweepFits(w.clock, w.jobs, w.sweeps[s], w.past);
  }

  /** So what a pass has fenced stays closed for ever. */
  lemma FencedForGood(c: Config, w: World, s: Guid, run: seq<Action>)
    requires Reachable(c, w) && LimitsOk(c.limits)
    requires s in w.sweeps && !w.sweeps[s].phase.Selected? && w.sweeps[s].job in w.jobs
    ensures var w', j := Exec(c, w, run), w.sweeps[s].job;
      j in w'.jobs ==> Gone(w'.jobs[j], w'.clock) && NothingNew(w.jobs[j], w'.jobs[j])
  {
    hide Exec, Reachable, Gone, NothingNew, Pending;
    FencedIsUnread(c, w, s);
    if w.sweeps[s].job in Exec(c, w, run).jobs { GoneForGood(c, w, run, w.sweeps[s].job); }
  }

  /** Some step makes the job active. */
  ghost predicate Reopens(c: Config, w: World, j: Guid) {
    exists a :: j in Next(c, w, a).jobs && Active(Next(c, w, a).jobs[j].state)
  }

  /** An open retry read the job at its present revision, and there is room in the queue. */
  ghost predicate ReadInTime(c: Config, w: World, j: Guid) {
    && j in w.jobs && Reopenable(w.jobs[j]) && ActiveJobs(w.jobs) < c.limits.maxQueuedJobs
    && exists r :: r in w.retries && w.retries[r].job == j && w.retries[r].revision == w.jobs[j].revision
  }

  lemma OnlyRetryReopens(c: Config, w: World, a: Action, j: Guid)
    requires Known(w) && j in w.jobs && !Active(w.jobs[j].state)
    requires j in Next(c, w, a).jobs && Active(Next(c, w, a).jobs[j].state)
    ensures a.Retry?
  {
    hide Changes, StaysGone, Pending, JobsEvolve;
    NextEvolves(c, w, a);
    if a.Submit? {
      hide NewItems, NewJob, Groups, Reserved, UsedIn, ActiveJobs, FreshItems, SiteLimit;
    } else {
      hide Next;
      assert j !in ActiveSet(w.jobs) && j in ActiveSet(Next(c, w, a).jobs);
    }
  }

  lemma RetryReopens(c: Config, w: World, at: Instant, r: Guid, month: int, quota: int, j: Guid)
    requires j in w.jobs && !Active(w.jobs[j].state)
    requires j in ApplyRetry(c, w, at, r, month, quota).jobs && Active(ApplyRetry(c, w, at, r, month, quota).jobs[j].state)
    ensures ReadInTime(c, w, j)
  {
    hide UsedIn, ActiveJobs, FailedItems, Reserved, Reopenable;
    assert r in w.retries && w.retries[r].job == j;
  }

  lemma ReadReopens(c: Config, w: World, r: Guid, j: Guid)
    requires j in w.jobs && Reopenable(w.jobs[j]) && ActiveJobs(w.jobs) < c.limits.maxQueuedJobs
    requires r in w.retries && w.retries[r].job == j && w.retries[r].revision == w.jobs[j].revision
    requires FailedItems(w.jobs[j]) * w.ledger.Keys == {}
    ensures var w' := ApplyRetry(c, w, w.clock, r, 0, UsedIn(w.ledger, 0) + |FailedItems(w.jobs[j])|);
      j in w'.jobs && Active(w'.jobs[j].state)
  {
    hide UsedIn, ActiveJobs, FailedItems, Reserved, Reopenable;
  }

  lemma RetryActs(c: Config, w: World, at: Instant, r: Guid, month: int, quota: int)
    ensures Next(c, w, Retry(at, r, month, quota)) == if w.clock <= at then ApplyRetry(c, w, at, r, month, quota) else w
  {
    hide ApplyRetry;
  }

  lemma StepReopens(c: Config, w: World, a: Action, j: Guid)
    requires Known(w) && j in w.jobs && !Active(w.jobs[j].state)
    requires j in Next(c, w, a).jobs && Active(Next(c, w, a).jobs[j].state)
    ensures ReadInTime(c, w, j)
  {
    hide Next, ApplyRetry, ReadInTime;
    OnlyRetryReopens(c, w, a, j);
    RetryActs(c, w, a.at, a.retry, a.month, a.quota);
    RetryReopens(c, w, a.at, a.retry, a.month, a.quota, j);
  }

  lemma ReadMayReopen(c: Config, w: World, j: Guid)
    requires ReadInTime(c, w, j) && FailedItems(w.jobs[j]) * w.ledger.Keys == {}
    ensures Reopens(c, w, j)
  {
    hide Next, ApplyRetry, UsedIn, FailedItems, ActiveJobs, Reopenable;
    var r :| r in w.retries && w.retries[r].job == j && w.retries[r].revision == w.jobs[j].revision;
    var quota := UsedIn(w.ledger, 0) + |FailedItems(w.jobs[j])|;
    ReadReopens(c, w, r, j);
    RetryActs(c, w, w.clock, r, 0, quota);
    assert Active(Next(c, w, Retry(w.clock, r, 0, quota)).jobs[j].state);
  }

  /** A run whose time is over can be reopened exactly if a retry read it in time and is still open. */
  lemma ReopensExactlyIfReadInTime(c: Config, w: World, j: Guid)
    requires Reachable(c, w) && LimitsOk(c.limits) && j in w.jobs && Gone(w.jobs[j], w.clock)
    ensures Reopens(c, w, j) <==> ReadInTime(c, w, j)
  {
    ReachableFits(c, w);
    Tables(c, w);
    assert Known(w);
    hide Inv, RetriesFit, Next, Reachable, HomesFit, ReadInTime;
    RetryNeverCollides(c, w, j);
    if Reopens(c, w, j) {
      var a :| j in Next(c, w, a).jobs && Active(Next(c, w, a).jobs[j].state);
      StepReopens(c, w, a, j);
    }
    hide Reopens;
    if ReadInTime(c, w, j) { ReadMayReopen(c, w, j); }
  }

  /**
   * The bytes a sweep pass is about to delete are not those of a ready PDF, and will
   * never be, unless the job is purging.
   */
  lemma SweepSparesReadyPdfs(c: Config, w: World, s: Guid, a: Guid, run: seq<Action>, i: Guid)
    requires Reachable(c, w) && LimitsOk(c.limits)
    requires s in w.sweeps && w.sweeps[s].phase.Erasing? && a in w.sweeps[s].phase.ids
    ensures var w', j := Exec(c, w, run), w.sweeps[s].job;
      j in w'.jobs && ReadyPdf(w'.jobs[j], a, i) ==> w'.jobs[j].state.Purging?
  {
    ReachableFits(c, w);
    var j := w.sweeps[s].job;
    assert SweepFits(w.clock, w.jobs, w.sweeps[s], w.past);
    Tables(c, w);
    if j in w.jobs { FencedIsUnread(c, w, s); }
    hide Inv, Exec, RetriesFit, Pending;
    RunEvolves(c, w, run, j);
  }

  /** A ready PDF of a run that is not purging is there, unless Storage erased its file or purged them all. */
  lemma ReadyPdfIsThere(c: Config, w: World, j: Guid, a: Guid, i: Guid)
    requires Reachable(c, w) && LimitsOk(c.limits)
    requires j in w.jobs && !w.jobs[j].state.Purging? && ReadyPdf(w.jobs[j], a, i)
    ensures var key := ReportKey(c.tenant, j, a);
      if key in w.store then w.store[key] == Pdf(i)
      else w.filesPurged || (a in w.files && w.files[a].status.Erased?)
  {
    ReachableFits(c, w);
    Tables(c, w);
    hide Inv;
    assert BytesOf(c, j, w.jobs[j], w.store, w.files, w.filesPurged);
  }

  // ---------- Storage ----------

  /** Every publication Storage can receive is valid and never contradicts a row it already has. */
  lemma PublicationNeverConflicts(c: Config, w: World, m: Publish)
    requires Reachable(c, w) && LimitsOk(c.limits) && m in w.outbox
    ensures ValidPublication(c.tenant, m)
    ensures m.id in w.files ==> !Conflicts(w.files[m.id], m)
  {
    ReachableFits(c, w);
    Tables(c, w);
    hide Inv, Announced;
    assert MessageFits(c, w.jobs, w.past.artifacts, m);
    if m.id in w.files { assert RowFits(c, w.jobs, w.past.artifacts, m.id, w.files[m.id]); }
  }

  /** A PDF counts as published only if Storage has its row or the organization's files were purged. */
  lemma PublishedMeansStored(c: Config, w: World, j: Guid, a: Guid)
    requires Reachable(c, w) && LimitsOk(c.limits)
    requires j in w.jobs && a in w.jobs[j].artifacts && w.jobs[j].artifacts[a].filePublished
    ensures a in w.files || w.filesPurged
  {
    ReachableFits(c, w);
    AtJob(c, w, j);
  }

  ghost predicate SameFile(row: FileRow, row': FileRow) {
    && row'.key == row.key && row'.origin == row.origin && row'.originId == row.originId
    && (row.status.Erased? ==> row'.status.Erased?)
  }

  /** Storage's rows only go with the purge, and the purge is final. */
  ghost predicate FilesEvolve(w: World, w': World) {
    && (w.filesPurged ==> w'.filesPurged && w'.files == w.files)
    && (w'.filesPurged || forall f | f in w.files :: f in w'.files && SameFile(w.files[f], w'.files[f]))
  }

  lemma FileActionStep(c: Config, w: World, at: Instant, id: Guid, op: Op)
    requires w.filesPurged ==> w.files == map[]
    ensures FilesEvolve(w, ApplyFileAction(c, w, at, id, op))
  {
    hide Keys;
  }

  // ---------- files over whole runs ----------

  lemma PublishStep(c: Config, w: World, m: Publish)
    ensures FilesEvolve(w, ApplyDeliverPublish(c, w, m))
  {
    hide ValidPublication, PublishedRow, Conflicts;
  }

  lemma PurgeFilesStep(w: World)
    requires w.filesPurged ==> w.files == map[]
    ensures FilesEvolve(w, ApplyPurgeFiles(w))
  {
    hide Keys;
  }

  lemma DeliveryStep(c: Config, w: World, a: Action)
    requires a.DeliverPublish? || a.PurgeFiles?
    requires w.filesPurged ==> w.files == map[]
    ensures FilesEvolve(w, Next(c, w, a))
  {
    hide FilesEvolve, ApplyDeliverPublish, ApplyPurgeFiles;
    match a {
      case DeliverPublish(m) => PublishStep(c, w, m);
      case PurgeFiles => PurgeFilesStep(w);
    }
  }

  lemma FilesStep(c: Config, w: World, a: Action)
    requires Known(w) && (w.filesPurged ==> w.files == map[])
    ensures FilesEvolve(w, Next(c, w, a))
  {
    if a.FileAction? {
      hide ApplyFileAction;
      FileActionStep(c, w, a.at, a.file, a.op);
    } else {
      hide Next;
      if a.DeliverPublish? || a.PurgeFiles? { DeliveryStep(c, w, a); } else { NextIsModest(c, w, a); }
    }
  }

  lemma FilesEvolveOn(w: World, w1: World, w': World)
    requires FilesEvolve(w, w1) && FilesEvolve(w1, w')
    ensures FilesEvolve(w, w')
  {
  }

  /**
   * One row an artifact, for good: redelivery never resets it, erasure is final, and
   * after the purge fence no generated row ever appears.
   */
  lemma {:induction false} FilesNeverReset(c: Config, w: World, run: seq<Action>)
    requires Inv(c, w) && RetriesFit(w) && LimitsOk(c.limits)
    ensures FilesEvolve(w, Exec(c, w, run))
    decreases |run|
  {
    hide Inv, RetriesFit, Next, FilesEvolve;
    if run == [] {
      FilesEvolveNow(w);
    } else {
      var w1 := Exec(c, w, run[..|run| - 1]);
      FilesNeverReset(c, w, run[..|run| - 1]);
      RunKeeps(c, w, run[..|run| - 1]);
      Tables(c, w1);
      FilesStep(c, w1, run[|run| - 1]);
      FilesEvolveOn(w, w1, Exec(c, w, run));
    }
  }

  lemma FilesEvolveNow(w: World)
    ensures FilesEvolve(w, w)
  {
  }
}
