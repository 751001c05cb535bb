/**
 * What a job's lock and a live lease keep others from doing. Users, workers and the
 * sweep's fence take the lock; the purge, acknowledgements and the rest of the sweep do not.
 */
module ReportLocks {
  import opened Basics
  import opened FileRows
  import opened ReportTypes
  import opened ReportRules
  import opened ReportWorld
  import opened ReportInvariant
  import opened ReportFrames
  import opened ReportSteps
  import opened ReportRuns

  /** The action is a transaction that takes the lock of job `j`. Admission's own locks are the subject of ReportAdmission. */
  predicate Locks(w: World, a: Action, j: Guid) {
    match a
    case Cancel(_, k, _) => k == j
    case Claim(_, k, _) => k == j
    case StartItem(_, id, _, _) => WorksOn(w, id, j)
    case Settle(_, id) => WorksOn(w, id, j)
    case StartBundle(_, id, _) => WorksOn(w, id, j)
    case ReadyBundle(_, id, _) => WorksOn(w, id, j)
    case Finish(_, id) => WorksOn(w, id, j)
    case Release(_, id) => WorksOn(w, id, j)
    case SweepFence(_, s) => s in w.sweeps && w.sweeps[s].job == j
    case _ => false
  }

  predicate WorksOn(w: World, id: Guid, j: Guid) { id in w.workers && w.workers[id].job == j }

  /** Only the list of artifacts may differ. */
  ghost predicate SameButArtifacts(p: Job, q: Job) { q == p.(artifacts := q.artifacts) }

  lemma CommittedLocks(c: Config, w: World, a: Action)
    requires Committed(c, w, a).Some?
    ensures Locks(w, a, Committed(c, w, a).value.job)
  {
    hide NothingQueued, WantsBundle, Owns, Claimable, Claimed, Started, SettledJob, WithBundle, BundleReady, Finished, LeaseReleased;
  }

  lemma PassFacts(c: Config, w: World, at: Instant, s: Guid, j: Guid, a: Guid)
    ensures ApplySweepSelect(w, at, s, j).jobs == w.jobs && ApplySweepRepublish(c, w, s).jobs == w.jobs
    ensures ApplySweepList(w, s).jobs == w.jobs && ApplySweepErase(c, w, s, a).jobs == w.jobs && ApplySweepJudge(w, s).jobs == w.jobs
  {
    hide Due, After, KeepsPdf, Discarded, Unacknowledged;
  }

  lemma SelectionLeaves(c: Config, w: World, a: Action)
    requires Timely(w, a) && (a.SweepSelect? || a.SweepRepublish? || a.SweepAbort?)
    ensures Next(c, w, a).jobs == w.jobs
  {
    hide Timely, ApplySweepSelect, ApplySweepRepublish;
    if a.SweepSelect? { PassFacts(c, w, a.at, a.sweep, a.job, a.job); }
    if a.SweepRepublish? { PassFacts(c, w, w.clock, a.sweep, a.sweep, a.sweep); }
  }

  lemma ErasureLeaves(c: Config, w: World, a: Action)
    requires Timely(w, a) && (a.SweepList? || a.SweepErase? || a.SweepJudge?)
    ensures Next(c, w, a).jobs == w.jobs
  {
    hide Timely, ApplySweepList, ApplySweepErase, ApplySweepJudge;
    PassFacts(c, w, w.clock, a.sweep, a.sweep, if a.SweepErase? then a.artifact else a.sweep);
  }

  lemma FenceLeaves(w: World, at: Instant, s: Guid, j: Guid)
    requires s in w.sweeps ==> w.sweeps[s].job != j
    ensures j in ApplySweepFence(w, at, s).jobs ==> j in w.jobs && ApplySweepFence(w, at, s).jobs[j] == w.jobs[j]
  {
    hide After, Fenced, Released;
  }

  lemma FencingLeaves(c: Config, w: World, a: Action, j: Guid)
    requires a.SweepFence? && Timely(w, a) && !Locks(w, a, j) && j in Next(c, w, a).jobs
    ensures j in w.jobs && Next(c, w, a).jobs[j] == w.jobs[j]
  {
    hide ApplySweepFence;
    FenceLeaves(w, a.at, a.sweep, j);
  }

  lemma DroppingLeaves(c: Config, w: World, a: Action, j: Guid)
    requires (a.SweepDropRows? || a.SweepDropJob?) && j in Next(c, w, a).jobs
    ensures j in w.jobs && SameButArtifacts(w.jobs[j], Next(c, w, a).jobs[j])
  {
    hide Timely;
  }

  lemma SweepLeaves(c: Config, w: World, a: Action, j: Guid)
    requires BySweep(a) && Timely(w, a) && !Locks(w, a, j) && j in Next(c, w, a).jobs
    ensures j in w.jobs && SameButArtifacts(w.jobs[j], Next(c, w, a).jobs[j])
  {
    hide Next, Timely, Locks;
    if a.SweepFence? {
      FencingLeaves(c, w, a, j);
    } else if a.SweepDropRows? || a.SweepDropJob? {
      DroppingLeaves(c, w, a, j);
    } else if a.SweepSelect? || a.SweepRepublish? || a.SweepAbort? {
      SelectionLeaves(c, w, a);
    } else {
      ErasureLeaves(c, w, a);
    }
  }

  lemma OthersLeave(c: Config, w: World, a: Action, j: Guid)
    requires !ByWorker(a) && !BySweep(a) && !a.Submit? && !a.Retry? && !Locks(w, a, j) && j in Next(c, w, a).jobs
    ensures j in w.jobs
    ensures SameButArtifacts(w.jobs[j], Next(c, w, a).jobs[j]) || w.jobs[j].revision < Next(c, w, a).jobs[j].revision
  {
    hide Apply, Keys, ValidPublication, Conflicts, PublishedRow, CanceledJob, Released, Retryable, ApplySubmit, ApplyRetry;
  }

  /**
   * While its lock is held by someone else, a job loses or gains marks and rows of its
   * artifacts, is purged, which raises its revision, or goes; nothing else happens to it.
   */
  lemma LockProtects(c: Config, w: World, a: Action, j: Guid)
    requires !a.Submit? && !a.Retry? && !Locks(w, a, j) && j in Next(c, w, a).jobs
    ensures j in w.jobs
    ensures SameButArtifacts(w.jobs[j], Next(c, w, a).jobs[j]) || w.jobs[j].revision < Next(c, w, a).jobs[j].revision
  {
    if !Timely(w, a) {
    } else if ByWorker(a) {
      WorkerWrites(c, w, a);
      if Committed(c, w, a).Some? { CommittedLocks(c, w, a); }
      hide Next, Committed, Locks, NewlyReady;
    } else if BySweep(a) {
      hide Next;
      SweepLeaves(c, w, a, j);
    } else {
      hide Next;
      OthersLeave(c, w, a, j);
    }
  }

  // ---------- leases ----------

  /** The owner commits something, or the run is canceled or purged. */
  predicate Disturbs(a: Action, j: Guid, id: Guid) {
    || (a.Cancel? && a.job == j) || a.PurgeReports?
    || ((a.StartItem? || a.Settle? || a.StartBundle? || a.ReadyBundle? || a.Finish? || a.Release?) && a.worker == id)
  }

  predicate Before(a: Action, until: Instant) { TimeOf(a).Some? ==> TimeOf(a).value < until }

  /** The same row but for acknowledgements of its PDFs. */
  ghost predicate SameButMarks(p: Job, q: Job) {
    q == p.(artifacts := q.artifacts) && SameArtifacts(p.artifacts, q.artifacts)
  }

  /** The job runs for worker `id` under a lease that ends at `until`. */
  predicate Leased(w: World, j: Guid, id: Guid, until: Instant) {
    j in w.jobs && OwnedBy(w.jobs[j], id) && w.jobs[j].leaseUntil == Some(until)
  }

  lemma LeasedCommits(c: Config, w: World, a: Action, j: Guid, id: Guid, until: Instant)
    requires Leased(w, j, id, until) && !Disturbs(a, j, id) && Before(a, until)
    ensures Committed(c, w, a).Some? ==> Committed(c, w, a).value.job != j
  {
    hide NothingQueued, WantsBundle, Claimed, Started, SettledJob, WithBundle, BundleReady, Finished, LeaseReleased;
  }

  lemma LeasedSweep(c: Config, w: World, a: Action, j: Guid, id: Guid, until: Instant)
    requires BySweep(a) && Timely(w, a) && Leased(w, j, id, until) && Before(a, until)
    requires forall s | s in w.sweeps :: SweepFits(w.clock, w.jobs, w.sweeps[s], w.past)
    ensures j in Next(c, w, a).jobs && Next(c, w, a).jobs[j] == w.jobs[j]
  {
    hide Next;
    if a.SweepFence? {
      LeasedFence(c, w, a, j);
    } else if a.SweepDropRows? || a.SweepDropJob? {
      LeasedDrop(c, w, a, j);
    } else if a.SweepSelect? || a.SweepRepublish? || a.SweepAbort? {
      SelectionLeaves(c, w, a);
    } else {
      ErasureLeaves(c, w, a);
    }
  }

  lemma LeasedFence(c: Config, w: World, a: Action, j: Guid)
    requires a.SweepFence? && Timely(w, a) && j in w.jobs && After(w.jobs[j].leaseUntil, a.at)
    ensures j in Next(c, w, a).jobs && Next(c, w, a).jobs[j] == w.jobs[j]
  {
    hide Timely, Fenced, Released;
  }

  lemma LeasedDrop(c: Config, w: World, a: Action, j: Guid)
    requires (a.SweepDropRows? || a.SweepDropJob?) && j in w.jobs && Active(w.jobs[j].state)
    requires forall s | s in w.sweeps :: SweepFits(w.clock, w.jobs, w.sweeps[s], w.past)
    ensures j in Next(c, w, a).jobs && Next(c, w, a).jobs[j] == w.jobs[j]
  {
    hide Timely, WithoutArtifacts, KeepsPdf, Discarded, Outdated;
    if a.sweep in w.sweeps { assert SweepFits(w.clock, w.jobs, w.sweeps[a.sweep], w.past); }
  }

  lemma LeasedOthers(c: Config, w: World, a: Action, j: Guid, id: Guid, until: Instant)
    requires !ByWorker(a) && !BySweep(a) && !a.Submit? && !a.Retry? && Leased(w, j, id, until) && !Disturbs(a, j, id)
    ensures j in Next(c, w, a).jobs && SameButMarks(w.jobs[j], Next(c, w, a).jobs[j])
  {
    hide Timely, Apply, Keys, ValidPublication, Conflicts, PublishedRow, CanceledJob, Released, ApplySubmit, ApplyRetry;
  }

  lemma LeasedRetry(c: Config, w: World, at: Instant, r: Guid, month: int, quota: int, j: Guid, id: Guid, until: Instant)
    requires Leased(w, j, id, until)
    ensures j in ApplyRetry(c, w, at, r, month, quota).jobs && ApplyRetry(c, w, at, r, month, quota).jobs[j] == w.jobs[j]
  {
    hide RetriedJob, FailedItems, Reserved, UsedIn, ActiveJobs;
  }

  lemma LeasedSubmit(c: Config, w: World, at: Instant, k: Guid, user: Guid, mode: Mode, sites: seq<Guid>, ids: seq<Guid>,
                     month: int, quota: int, j: Guid)
    requires j in w.jobs && j in w.past.jobs
    ensures var w' := ApplySubmit(c, w, at, k, user, mode, sites, ids, month, quota);
      j in w'.jobs && w'.jobs[j] == w.jobs[j]
  {
    hide NewItems, NewJob, Groups, Reserved, UsedIn, ActiveJobs, FreshItems, SiteLimit;
  }

  lemma LeasedAdmission(c: Config, w: World, a: Action, j: Guid, id: Guid, until: Instant)
    requires (a.Submit? || a.Retry?) && Leased(w, j, id, until) && j in w.past.jobs
    ensures j in Next(c, w, a).jobs && Next(c, w, a).jobs[j] == w.jobs[j]
  {
    hide Timely, ApplySubmit, ApplyRetry;
    match a {
      case Submit(at, k, user, mode, sites, ids, month, quota) => LeasedSubmit(c, w, at, k, user, mode, sites, ids, month, quota, j);
      case Retry(at, r, month, quota) => LeasedRetry(c, w, at, r, month, quota, j, id, until);
    }
  }

  lemma LeasedWorker(c: Config, w: World, a: Action, j: Guid, id: Guid, until: Instant)
    requires ByWorker(a) && Timely(w, a) && Leased(w, j, id, until) && !Disturbs(a, j, id) && Before(a, until)
    ensures j in Next(c, w, a).jobs && Next(c, w, a).jobs[j] == w.jobs[j]
  {
    hide Next, NewlyReady;
    WorkerWrites(c, w, a);
    LeasedCommits(c, w, a, j, id, until);
    hide Committed, Disturbs;
  }

  lemma LeaseStepFrom(c: Config, w: World, a: Action, j: Guid, id: Guid, until: Instant)
    requires j in w.past.jobs && forall s | s in w.sweeps :: SweepFits(w.clock, w.jobs, w.sweeps[s], w.past)
    requires Leased(w, j, id, until) && !Disturbs(a, j, id) && Before(a, until) && Timely(w, a)
    ensures j in Next(c, w, a).jobs && SameButMarks(w.jobs[j], Next(c, w, a).jobs[j])
  {
    hide Next, SweepFits, Leased, Disturbs, Before, Timely;
    SameIsMarked(w, j, id, until);
    if ByWorker(a) {
      LeasedWorker(c, w, a, j, id, until);
    } else if BySweep(a) {
      LeasedSweep(c, w, a, j, id, until);
    } else if a.Submit? || a.Retry? {
      LeasedAdmission(c, w, a, j, id, until);
    } else {
      LeasedOthers(c, w, a, j, id, until);
    }
  }

  lemma SameIsMarked(w: World, j: Guid, id: Guid, until: Instant)
    requires Leased(w, j, id, until)
    ensures j in w.jobs && SameButMarks(w.jobs[j], w.jobs[j])
  {
  }

  /** Before a lease ends, nobody but its worker changes the row, unless the run is canceled or purged. */
  lemma LeaseStep(c: Config, w: World, a: Action, j: Guid, id: Guid, until: Instant)
    requires Inv(c, w) && Leased(w, j, id, until) && !Disturbs(a, j, id) && Before(a, until)
    ensures j in Next(c, w, a).jobs && SameButMarks(w.jobs[j], Next(c, w, a).jobs[j])
  {
    Tables(c, w);
    assert j in w.past.jobs && forall s | s in w.sweeps :: SweepFits(w.clock, w.jobs, w.sweeps[s], w.past);
    hide Inv;
    if Timely(w, a) {
      hide Next;
      LeaseStepFrom(c, w, a, j, id, until);
    }
  }

  lemma MarksAddUp(p: Job, q: Job, r: Job)
    requires SameButMarks(p, q) && SameButMarks(q, r)
    ensures SameButMarks(p, r)
  {
  }

  /**
   * From when a worker got or renewed its lease until the lease ends, whatever anyone else
   * does in between, the run stays the worker's: every claim and every sweep fence is
   * refused, and its row does not change but for acknowledgements.
   */
  lemma {:induction false} LeaseProtects(c: Config, w: World, run: seq<Action>, j: Guid, id: Guid, until: Instant)
    requires Reachable(c, w) && LimitsOk(c.limits) && Leased(w, j, id, until)
    requires forall k | 0 <= k < |run| :: !Disturbs(run[k], j, id) && Before(run[k], until)
    ensures var w' := Exec(c, w, run); j in w'.jobs && SameButMarks(w.jobs[j], w'.jobs[j])
    decreases |run|
  {
    ReachableFits(c, w);
    hide Inv, RetriesFit, Next, Reachable;
    if run != [] {
      var before, a := run[..|run| - 1], run[|run| - 1];
      LeaseProtects(c, w, before, j, id, until);
      RunKeeps(c, w, before);
      LeaseStep(c, Exec(c, w, before), a, j, id, until);
      MarksAddUp(w.jobs[j], Exec(c, w, before).jobs[j], Exec(c, w, run).jobs[j]);
    }
  }

  lemma LeaseRefuses(c: Config, w: World, j: Guid, id: Guid, until: Instant, later: Instant, other: Guid, s: Guid)
    requires Leased(w, j, id, until) && later < until
    ensures ApplyClaim(c, w, later, j, other) == w
    ensures s in w.sweeps && w.sweeps[s].job == j ==> ApplySweepFence(w, later, s).jobs == w.jobs
  {
    hide Commit, Claimed, Fenced, Released;
  }

  lemma RenewedLease(c: Config, w: World, a: Action)
    requires (a.StartItem? || a.StartBundle?) && Timely(w, a) && Committed(c, w, a).Some?
    ensures var w1, j := Next(c, w, a), w.workers[a.worker].job;
      Leased(w1, j, a.worker, a.at + c.limits.itemTimeout + MINUTE)
  {
    WorkerWrites(c, w, a);
    hide Next, NewlyReady, NothingQueued, WantsBundle;
  }

  /**
   * Starting an item or the bundle gives its worker the job until a minute after the
   * item's deadline: whatever the others do meanwhile, it is still the owner then, the row
   * is as it left it but for acknowledgements, and the next claim or fence is refused.
   */
  lemma LeaseCoversRendering(c: Config, w: World, a: Action, run: seq<Action>, later: Instant, other: Guid, s: Guid)
    requires Reachable(c, w) && LimitsOk(c.limits)
    requires (a.StartItem? || a.StartBundle?) && Timely(w, a) && Committed(c, w, a).Some?
    requires var j, until := w.workers[a.worker].job, a.at + c.limits.itemTimeout + MINUTE;
      (forall k | 0 <= k < |run| :: !Disturbs(run[k], j, a.worker) && Before(run[k], until)) && later < until
    ensures var w1, j := Next(c, w, a), w.workers[a.worker].job;
      var w' := Exec(c, w1, run);
      && j in w1.jobs && j in w'.jobs && SameButMarks(w1.jobs[j], w'.jobs[j]) && OwnedBy(w'.jobs[j], a.worker)
      && ApplyClaim(c, w', later, j, other) == w'
      && (s in w'.sweeps && w'.sweeps[s].job == j ==> ApplySweepFence(w', later, s).jobs == w'.jobs)
  {
    var j, until := w.workers[a.worker].job, a.at + c.limits.itemTimeout + MINUTE;
    RenewedLease(c, w, a);
    ReachableNext(c, w, a);
    hide Next, Exec, Committed, Reachable, ApplyClaim, ApplySweepFence;
    var w1 := Next(c, w, a);
    LeaseProtects(c, w1, run, j, a.worker, until);
    LeaseRefuses(c, Exec(c, w1, run), j, a.worker, until, later, other, s);
  }
}
