/**
 * What happens when it should: an admitted run has the items that were asked for, a run
 * without a worker can be claimed, every ready PDF is announced, and a pass lists what it
 * has to delete. The other modules say what never happens.
 */
module ReportNews {
  import opened Basics
  import opened FileRows
  import opened ReportTypes
  import opened ReportRules
  import opened ReportWorld
  import opened ReportInvariant
  import opened ReportFrames
  import opened ReportSteps
  import opened ReportRuns
  import opened ReportSafety

  // ---------- every ready PDF is announced ----------

  predicate ReadyOutput(job: Job, a: Guid) {
    a in job.artifacts && job.artifacts[a].ready && job.artifacts[a].item.Some?
  }

  ghost predicate Heard(outbox: set<Publish>, a: Guid) {
    exists m :: m in outbox && m.id == a
  }

  ghost predicate AllHeard(w: World) {
    forall j, a | j in w.jobs && ReadyOutput(w.jobs[j], a) :: Heard(w.outbox, a)
  }

  /** Nothing became ready. */
  ghost predicate NoneReadied(p: Job, q: Job) {
    forall a | ReadyOutput(q, a) :: ReadyOutput(p, a)
  }

  /** Nothing became ready anywhere, and no message was taken back. */
  ghost predicate NoNews(w: World, w': World) {
    && w.outbox <= w'.outbox
    && forall j | j in w'.jobs :: if j in w.jobs then NoneReadied(w.jobs[j], w'.jobs[j]) else w'.jobs[j].artifacts == map[]
  }

  lemma ChangesReadyNone(p: Job, limits: Limits, at: Instant, id: Guid, ids: set<Guid>)
    ensures NoneReadied(p, p) && NoneReadied(p, CanceledJob(p, limits, at)) && NoneReadied(p, RetriedJob(p))
    ensures NoneReadied(p, Fenced(p)) && NoneReadied(p, Purged(p, at)) && NoneReadied(p, WithoutArtifacts(p, ids))
    ensures NoneReadied(p, Acknowledged(p, id))
  {
    hide CancelItem, RetryItem;
  }

  /** The jobs are as they were, and no message was taken back. */
  ghost predicate Quiet(w: World, w': World) { w'.jobs == w.jobs && w.outbox <= w'.outbox }

  lemma QuietIsNoNews(w: World, w': World)
    requires Quiet(w, w')
    ensures NoNews(w, w')
  {
  }

  lemma StillHeard(outbox: set<Publish>, outbox': set<Publish>, a: Guid)
    requires Heard(outbox, a) && outbox <= outbox'
    ensures Heard(outbox', a)
  {
  }

  lemma NoNewsKeeps(w: World, w': World)
    requires AllHeard(w) && NoNews(w, w')
    ensures AllHeard(w')
  {
    forall j, a | j in w'.jobs && ReadyOutput(w'.jobs[j], a) ensures Heard(w'.outbox, a) {
      StillHeard(w.outbox, w'.outbox, a);
    }
  }

  // ---------- steps that make nothing ready ----------

  lemma SubmitNoNews(c: Config, w: World, at: Instant, j: Guid, user: Guid, mode: Mode, sites: seq<Guid>, ids: seq<Guid>,
                     month: int, quota: int)
    ensures NoNews(w, ApplySubmit(c, w, at, j, user, mode, sites, ids, month, quota))
  {
    hide Groups, NewItems, UsedIn, ActiveJobs, Reserved, FreshItems, SiteLimit;
  }

  lemma RetryNoNews(c: Config, w: World, at: Instant, r: Guid, month: int, quota: int)
    ensures NoNews(w, ApplyRetry(c, w, at, r, month, quota))
  {
    RetryAside(c, w, at, r, month, quota);
    if r in w.retries && w.retries[r].job in w.jobs { ChangesReadyNone(w.jobs[w.retries[r].job], c.limits, at, r, {}); }
    hide UsedIn, ActiveJobs, Reserved, Reopenable, FailedItems, RetriedJob;
  }

  lemma CancelNoNews(c: Config, w: World, at: Instant, j: Guid, user: Guid)
    ensures NoNews(w, ApplyCancel(c, w, at, j, user))
  {
    if j in w.jobs { ChangesReadyNone(w.jobs[j], c.limits, at, j, {}); }
    hide Released, CanceledJob;
  }

  lemma QuietReads(w: World, at: Instant, j: Guid, user: Guid, r: Guid)
    ensures Quiet(w, ApplyReadRetry(w, at, r, j, user)) && Quiet(w, DropRetry(w, r))
  {
    hide Retryable;
  }

  lemma UserNoNews(c: Config, w: World, a: Action)
    requires Timely(w, a) && (a.Submit? || a.Cancel? || a.ReadRetry? || a.Retry? || a.AbortRetry?)
    ensures NoNews(w, Next(c, w, a))
  {
    if a.ReadRetry? { QuietReads(w, a.at, a.job, a.user, a.retry); }
    if a.AbortRetry? { QuietReads(w, w.clock, 0, 0, a.retry); }
    hide Timely, NoNews, Quiet, ApplySubmit, ApplyCancel, ApplyReadRetry, ApplyRetry, DropRetry;
    match a {
      case Submit(at, j, user, mode, sites, ids, month, quota) => SubmitNoNews(c, w, at, j, user, mode, sites, ids, month, quota);
      case Cancel(at, j, user) => CancelNoNews(c, w, at, j, user);
      case ReadRetry(at, r, j, user) => QuietIsNoNews(w, ApplyReadRetry(w, at, r, j, user));
      case Retry(at, r, month, quota) => RetryNoNews(c, w, at, r, month, quota);
      case AbortRetry(r) => QuietIsNoNews(w, DropRetry(w, r));
    }
  }

  lemma QuietPasses(c: Config, w: World, at: Instant, s: Guid, j: Guid)
    ensures Quiet(w, ApplySweepSelect(w, at, s, j)) && Quiet(w, ApplySweepRepublish(c, w, s)) && Quiet(w, w.(sweeps := w.sweeps - {s}))
  {
    hide Unacknowledged, After, Due;
  }

  lemma QuietErasures(c: Config, w: World, s: Guid, a: Guid)
    ensures Quiet(w, ApplySweepList(w, s)) && Quiet(w, ApplySweepErase(c, w, s, a)) && Quiet(w, ApplySweepJudge(w, s))
  {
    EraseShape(c, w, s, a);
    hide Discarded, KeepsPdf, ApplySweepErase, SameListings;
  }

  lemma FenceNoNews(w: World, at: Instant, s: Guid)
    ensures NoNews(w, ApplySweepFence(w, at, s))
  {
    if s in w.sweeps && w.sweeps[s].job in w.jobs { ChangesReadyNone(w.jobs[w.sweeps[s].job], Limits(1, 1, 1, 1, 1, 1), at, s, {}); }
    hide Fenced, Released, After;
  }

  lemma DropRowsNoNews(w: World, s: Guid)
    ensures NoNews(w, ApplySweepDropRows(w, s))
  {
  }

  lemma DropJobNoNews(w: World, s: Guid)
    ensures NoNews(w, ApplySweepDropJob(w, s))
  {
  }

  lemma PassNoNews(c: Config, w: World, a: Action)
    requires Timely(w, a) && (a.SweepSelect? || a.SweepRepublish? || a.SweepFence? || a.SweepAbort?)
    ensures NoNews(w, Next(c, w, a))
  {
    hide Timely, NoNews, Quiet, ApplySweepSelect, ApplySweepRepublish, ApplySweepFence;
    if a.SweepFence? {
      FenceNoNews(w, a.at, a.sweep);
    } else {
      if a.SweepSelect? { QuietPasses(c, w, a.at, a.sweep, a.job); } else { QuietPasses(c, w, w.clock, a.sweep, 0); }
      QuietIsNoNews(w, Next(c, w, a));
    }
  }

  lemma ErasureNoNews(c: Config, w: World, a: Action)
    requires a.SweepList? || a.SweepErase? || a.SweepDropRows? || a.SweepJudge? || a.SweepDropJob?
    ensures NoNews(w, Next(c, w, a))
  {
    hide NoNews, Quiet, ApplySweepList, ApplySweepErase, ApplySweepDropRows, ApplySweepJudge, ApplySweepDropJob;
    if a.SweepDropRows? {
      DropRowsNoNews(w, a.sweep);
    } else if a.SweepDropJob? {
      DropJobNoNews(w, a.sweep);
    } else {
      if a.SweepErase? { QuietErasures(c, w, a.sweep, a.artifact); } else { QuietErasures(c, w, a.sweep, 0); }
      QuietIsNoNews(w, Next(c, w, a));
    }
  }

  lemma PurgeNoNews(w: World, at: Instant)
    ensures NoNews(w, ApplyPurgeReports(w, at))
  {
    forall j | j in w.jobs ensures NoneReadied(w.jobs[j], Purged(w.jobs[j], at)) {
      ChangesReadyNone(w.jobs[j], Limits(1, 1, 1, 1, 1, 1), at, j, {});
    }
    hide Purged, NoneReadied;
  }

  lemma AckNoNews(w: World, id: Guid)
    ensures NoNews(w, ApplyDeliverAck(w, id))
  {
    forall j | j in w.jobs ensures NoneReadied(w.jobs[j], Acknowledged(w.jobs[j], id)) && NoneReadied(w.jobs[j], w.jobs[j]) {
      ChangesReadyNone(w.jobs[j], Limits(1, 1, 1, 1, 1, 1), w.clock, id, {});
    }
    hide Acknowledged, NoneReadied;
  }

  lemma QuietFiles(c: Config, w: World, a: Action)
    requires Timely(w, a) && (a.DeliverPublish? || a.FileAction? || a.PurgeFiles?)
    ensures Quiet(w, Next(c, w, a))
  {
    hide Timely, Apply, Keys, ValidPublication, Conflicts, PublishedRow;
  }

  lemma StorageNoNews(c: Config, w: World, a: Action)
    requires Timely(w, a)
    requires a.PurgeReports? || a.DeliverPublish? || a.DeliverAck? || a.FileAction? || a.PurgeFiles?
    ensures NoNews(w, Next(c, w, a))
  {
    if a.PurgeReports? {
      hide Timely, NoNews, ApplyPurgeReports;
      PurgeNoNews(w, a.at);
    } else if a.DeliverAck? {
      hide NoNews, ApplyDeliverAck;
      AckNoNews(w, a.file);
    } else {
      hide Next, Quiet;
      QuietFiles(c, w, a);
      QuietIsNoNews(w, Next(c, w, a));
    }
  }

  /** A worker's commit announces whatever it makes ready. */
  lemma WorkerAnnounces(c: Config, w: World, a: Action)
    requires ByWorker(a) && Timely(w, a) && AllHeard(w) && JobsFit(Next(c, w, a).jobs)
    ensures AllHeard(Next(c, w, a))
  {
    WorkerWrites(c, w, a);
    if Committed(c, w, a).Some? {
      PdfsStayPdfs(c, w, a);
      var k := Committed(c, w, a).value;
      hide Next, Committed, NewlyReady, JobFits, ReadyOutput, AllHeard;
      assert Next(c, w, a).jobs[k.job] == k.row;
      CommitAnnounces(c, w, Next(c, w, a), k.job, k.row);
    } else {
      hide Next, Committed;
      QuietIsNoNews(w, Next(c, w, a));
      NoNewsKeeps(w, Next(c, w, a));
    }
  }

  lemma CommitAnnounces(c: Config, w: World, w': World, j: Guid, q: Job)
    requires AllHeard(w) && j in w.jobs && w'.jobs == w.jobs[j := q] && JobFits(q)
    requires w'.outbox == w.outbox + NewlyReady(c.tenant, j, w.jobs[j], q)
    requires forall a | ReadyOutput(q, a) && a in w.jobs[j].artifacts :: w.jobs[j].artifacts[a].item.Some?
    ensures AllHeard(w')
  {
    hide NewlyReady, Heard, JobFits;
    forall k, a | k in w'.jobs && ReadyOutput(w'.jobs[k], a) ensures Heard(w'.outbox, a) {
      if k in w.jobs && ReadyOutput(w.jobs[k], a) {
        StillHeard(w.outbox, w'.outbox, a);
      } else {
        NewlyReadyHeard(c.tenant, j, w.jobs[j], q, a);
        StillHeard(NewlyReady(c.tenant, j, w.jobs[j], q), w'.outbox, a);
      }
    }
  }

  lemma NewlyReadyHeard(tenant: Tenant, j: Guid, p: Job, q: Job, a: Guid)
    requires JobFits(q) && ReadyOutput(q, a) && !ReadyOutput(p, a)
    requires a in p.artifacts ==> p.artifacts[a].item.Some?
    ensures Heard(NewlyReady(tenant, j, p, q), a)
  {
    assert Announce(tenant, j, q, a, q.artifacts[a].item.value) in NewlyReady(tenant, j, p, q);
  }

  /** No commit makes a ready PDF of a bundle. */
  lemma PdfsStayPdfs(c: Config, w: World, a: Action)
    requires Committed(c, w, a).Some? && Committed(c, w, a).value.job in w.jobs
    ensures var k := Committed(c, w, a).value;
      forall x | ReadyOutput(k.row, x) && x in w.jobs[k.job].artifacts :: w.jobs[k.job].artifacts[x].item.Some?
  {
    hide NothingQueued, WantsBundle, Claimable, Owns, LeaseEnd, Requeue, SettledItem;
  }

  lemma {:induction false} RunAnnounces(c: Config, run: seq<Action>)
    requires LimitsOk(c.limits)
    ensures AllHeard(Exec(c, Genesis, run))
    decreases |run|
  {
    hide Next, Inv, AllHeard, NoNews;
    if run == [] {
      assert AllHeard(Genesis) by { NothingHeard(); }
    } else {
      var w, a := Exec(c, Genesis, run[..|run| - 1]), run[|run| - 1];
      RunAnnounces(c, run[..|run| - 1]);
      ReachableFits(c, Exec(c, Genesis, run));
      Tables(c, Exec(c, Genesis, run));
      StepAnnounces(c, w, a);
    }
  }

  lemma NothingHeard()
    ensures AllHeard(Genesis)
  {
  }

  lemma StepAnnounces(c: Config, w: World, a: Action)
    requires AllHeard(w) && JobsFit(Next(c, w, a).jobs)
    ensures AllHeard(Next(c, w, a))
  {
    hide Next, NoNews, AllHeard, JobsFit;
    if !Timely(w, a) {
      UntimelyIsNothing(c, w, a);
    } else if ByWorker(a) {
      WorkerAnnounces(c, w, a);
    } else {
      if a.SweepSelect? || a.SweepRepublish? || a.SweepFence? || a.SweepAbort? {
        PassNoNews(c, w, a);
      } else if BySweep(a) {
        ErasureNoNews(c, w, a);
      } else if a.Submit? || a.Cancel? || a.ReadRetry? || a.Retry? || a.AbortRetry? {
        UserNoNews(c, w, a);
      } else {
        StorageNoNews(c, w, a);
      }
      NoNewsKeeps(w, Next(c, w, a));
    }
  }

  /** In every reachable world Storage was told of every ready PDF, under its key and as its run's. */
  lemma ReadyIsAnnounced(c: Config, w: World, j: Guid, a: Guid)
    requires Reachable(c, w) && LimitsOk(c.limits)
    requires j in w.jobs && a in w.jobs[j].artifacts && w.jobs[j].artifacts[a].ready && w.jobs[j].artifacts[a].item.Some?
    ensures exists m :: m in w.outbox && m.id == a && m.key == BlobKey(c.tenant, ReportPath(j, a), false)
                        && m.origin == "report" && m.originId == j
  {
    var run :| w == Exec(c, Genesis, run);
    RunAnnounces(c, run);
    ReachableFits(c, w);
    Tables(c, w);
    AtJob(c, w, j);
    hide Inv, Exec, Reachable;
    assert ReadyOutput(w.jobs[j], a) && Heard(w.outbox, a);
    var m :| m in w.outbox && m.id == a;
    assert MessageFits(c, w.jobs, w.past.artifacts, m);
  }

  /** The message of a settlement: the PDF that was rendered, and none if it was not. */
  lemma SettlementIsNews(c: Config, w: World, at: Instant, id: Guid)
    requires Reachable(c, w) && LimitsOk(c.limits) && w.clock <= at
    requires id in w.workers && w.workers[id].phase.Settling? && Holds(w, id, w.workers[id].phase.revision)
    ensures var j, p := w.workers[id].job, w.workers[id].phase;
      p.item in w.jobs[j].items &&
      Next(c, w, Settle(at, id)).outbox
      == if p.outcome.Refused? then w.outbox
         else w.outbox + {Publish(p.artifact, BlobKey(c.tenant, ReportPath(j, p.artifact), false), p.outcome.bytes,
                                  w.jobs[j].requestedBy, at, w.jobs[j].items[p.item].sites, "report", j)}
  {
    ReachableFits(c, w);
    var j, p := w.workers[id].job, w.workers[id].phase;
    AtJob(c, w, j);
    AtWorker(c, w, id);
    hide Inv, Reachable, LimitsOk;
    SettledNews(c.tenant, j, w.jobs[j], p.item, p.artifact, p.outcome, at);
    SettleSends(c, w, at, id);
    hide Next, NewlyReady, SettledJob;
  }

  lemma SettleSends(c: Config, w: World, at: Instant, id: Guid)
    requires w.clock <= at && id in w.workers && w.workers[id].phase.Settling? && Holds(w, id, w.workers[id].phase.revision)
    requires var j, p := w.workers[id].job, w.workers[id].phase; p.item in w.jobs[j].items && p.artifact in w.jobs[j].artifacts
    ensures var j, p := w.workers[id].job, w.workers[id].phase;
      Next(c, w, Settle(at, id)).outbox
      == w.outbox + NewlyReady(c.tenant, j, w.jobs[j], SettledJob(w.jobs[j], p.item, p.artifact, p.outcome, at))
  {
    hide NewlyReady, SettledJob, Settled;
  }

  /** A pass over a job announces again exactly what Storage has not acknowledged. */
  lemma RepublishTells(c: Config, w: World, s: Guid, m: Publish)
    requires s in w.sweeps && w.sweeps[s].phase.Selected? && !w.sweeps[s].purging && w.sweeps[s].job in w.jobs
    ensures var j := w.sweeps[s].job;
      m in Next(c, w, SweepRepublish(s)).outbox
      <==> m in w.outbox || (HandsOver(m, c.tenant, j, w.jobs[j]) && !w.jobs[j].artifacts[m.id].filePublished)
  {
    UnacknowledgedAre(c.tenant, w.sweeps[s].job, w.jobs[w.sweeps[s].job]);
    hide Unacknowledged, HandsOver;
  }

  // ---------- admission, claims and listings ----------

  /**
   * A run is admitted exactly within its mode's limit, the queue's cap and the month's
   * quota, and then it waits with one item over all sites, or one item a site.
   */
  lemma SubmitBuilds(c: Config, w: World, at: Instant, j: Guid, user: Guid, mode: Mode, sites: seq<Guid>, ids: seq<Guid>,
                     month: int, quota: int)
    requires w.clock <= at && j !in w.past.jobs && j !in w.jobs && FreshItems(w, ids)
    requires |ids| == if mode.Aggregate? then 1 else |sites|
    ensures var w' := Next(c, w, Submit(at, j, user, mode, sites, ids, month, quota));
      && (j in w'.jobs <==>
            && 1 <= |sites|
            && |sites| <= (match mode case Single => 1 case Bulk => c.limits.maxBatchItems case Aggregate => c.limits.maxAggregateSites)
            && ActiveJobs(w.jobs) < c.limits.maxQueuedJobs && UsedIn(w.ledger, month) + |ids| <= quota)
      && (j in w'.jobs ==>
            && w'.jobs[j].state.Queued? && w'.jobs[j].requestedBy == user && w'.jobs[j].mode == mode
            && w'.jobs[j].items.Keys == (set i | i in ids)
            && forall k | 0 <= k < |ids| ::
                 w'.jobs[j].items[ids[k]]
                 == Item(ItemState.Queued, 0, if mode.Aggregate? then sites else [sites[k]], None, None))
  {
    NewItemsAre(ids, Groups(mode, sites));
    hide NewItems, UsedIn, ActiveJobs, FreshItems;
    SubmitActs(c, w, at, j, user, mode, sites, ids, month, quota);
    hide Next, SiteLimit;
  }

  lemma SubmitActs(c: Config, w: World, at: Instant, j: Guid, user: Guid, mode: Mode, sites: seq<Guid>, ids: seq<Guid>,
                   month: int, quota: int)
    requires w.clock <= at && j !in w.past.jobs && FreshItems(w, ids) && |ids| == |Groups(mode, sites)|
    ensures (match mode case Single => 1 case Bulk => c.limits.maxBatchItems case Aggregate => c.limits.maxAggregateSites)
         == SiteLimit(mode, c.limits)
    ensures Next(c, w, Submit(at, j, user, mode, sites, ids, month, quota)).jobs
         == if 1 <= |sites| <= SiteLimit(mode, c.limits) && ActiveJobs(w.jobs) < c.limits.maxQueuedJobs
               && UsedIn(w.ledger, month) + |ids| <= quota
            then w.jobs[j := NewJob(user, mode, NewItems(ids, Groups(mode, sites)), at)] else w.jobs
  {
    hide NewItems, NewJob, Groups, UsedIn, ActiveJobs, FreshItems, Reserved;
  }

  /** A new worker gets a job exactly if it is queued or running, no lease on it is live, and it has not expired. */
  lemma ClaimsExactly(c: Config, w: World, at: Instant, j: Guid, id: Guid)
    requires Reachable(c, w) && LimitsOk(c.limits) && w.clock <= at && id !in w.past.workers
    ensures var w' := Next(c, w, Claim(at, j, id));
      && (j in w'.jobs && w'.jobs[j].owner == Some(id) <==>
            && j in w.jobs && (w.jobs[j].state.Queued? || w.jobs[j].state.Running?)
            && (w.jobs[j].leaseUntil.None? || w.jobs[j].leaseUntil.value <= at)
            && (w.jobs[j].expiresAt.None? || w.jobs[j].expiresAt.value > at))
      && (j in w'.jobs && w'.jobs[j].owner == Some(id) ==>
            && w'.jobs[j].state.Running? && w'.jobs[j].leaseUntil == Some(at + c.limits.itemTimeout + 60)
            && w'.jobs[j].items.Keys == w.jobs[j].items.Keys
            && forall i | i in w.jobs[j].items ::
                 w'.jobs[j].items[i] == if w.jobs[j].items[i].state.Running? then w.jobs[j].items[i].(state := ItemState.Queued)
                                        else w.jobs[j].items[i])
  {
    ReachableFits(c, w);
    if j in w.jobs { OldOwner(c, w, j); }
    hide Inv, RetriesFit, Reachable, LimitsOk, Claimed;
    if j in w.jobs && Claimable(w.jobs[j], at) {
      ClaimTakes(w.jobs[j], id, c.limits, at);
      CommitShape(c, w, at, j, Claimed(w.jobs[j], id, c.limits, at));
    }
    ClaimActs(c, w, at, j, id);
    hide Next, Commit;
  }

  lemma ClaimActs(c: Config, w: World, at: Instant, j: Guid, id: Guid)
    requires w.clock <= at && id !in w.past.workers
    ensures Next(c, w, Claim(at, j, id)).jobs
         == if j in w.jobs && Claimable(w.jobs[j], at) then w.jobs[j := Claimed(w.jobs[j], id, c.limits, at)] else w.jobs
  {
    hide Claimable, Claimed, NewlyReady;
  }

  lemma OldOwner(c: Config, w: World, j: Guid)
    requires Inv(c, w) && j in w.jobs
    ensures w.jobs[j].owner.Some? ==> w.jobs[j].owner.value in w.past.workers
  {
  }

  lemma ClaimTakes(p: Job, id: Guid, limits: Limits, at: Instant)
    ensures var q := Claimed(p, id, limits, at);
      && q.state.Running? && q.owner == Some(id) && q.leaseUntil == Some(at + limits.itemTimeout + 60)
      && q.items.Keys == p.items.Keys
      && forall i | i in p.items ::
           q.items[i] == if p.items[i].state.Running? then p.items[i].(state := ItemState.Queued) else p.items[i]
  {
  }

  /** A pass past its fence lists everything of a purging job, and otherwise exactly the failed attempts and the bundles. */
  lemma ListsExactly(c: Config, w: World, s: Guid, a: Guid)
    requires s in w.sweeps && w.sweeps[s].phase.PastFence? && w.sweeps[s].job in w.jobs
    ensures var w', job := Next(c, w, SweepList(s)), w.jobs[w.sweeps[s].job];
      && w'.sweeps[s].phase.Erasing? && w'.sweeps[s].phase.left == w'.sweeps[s].phase.ids
      && (a in w'.sweeps[s].phase.ids <==>
            a in job.artifacts && (w.sweeps[s].purging || !job.artifacts[a].ready || job.artifacts[a].item.None?))
  {
  }

  // ---------- Storage ----------

  /** A file that a handler erases loses its bytes and its preview, and no other bytes go. */
  lemma ErasureDeletes(c: Config, w: World, at: Instant, id: Guid, op: Op, key: BlobKey)
    requires w.clock <= at && id in w.files && !w.files[id].status.Erased? && key in w.store
    ensures var w' := Next(c, w, FileAction(at, id, op));
      && id in w'.files
      && (key !in w'.store <==>
            w'.files[id].status.Erased? && (key == w.files[id].key || w.files[id].preview == Some(key)))
  {
  }

  lemma KeysOfFiles(files: map<Guid, FileRow>, key: BlobKey)
    ensures key in (set id, k | id in files && k in Keys(files[id]) :: k)
       <==> exists id :: id in files && (key == files[id].key || files[id].preview == Some(key))
  {
    assert forall id | id in files :: key in Keys(files[id]) <==> key == files[id].key || files[id].preview == Some(key);
  }

  /** The purge of all files takes exactly their bytes and previews, and leaves no row. */
  lemma PurgeDeletes(c: Config, w: World, key: BlobKey)
    requires key in w.store
    ensures var w' := Next(c, w, PurgeFiles);
      && w'.files == map[] && w'.filesPurged
      && (key !in w'.store <==> exists id :: id in w.files && (key == w.files[id].key || w.files[id].preview == Some(key)))
  {
    KeysOfFiles(w.files, key);
    hide Keys;
  }
}
