/**
 * What can still be done from every reachable world, whatever crashed workers, stale
 * snapshots and late messages have left behind: a new worker can finish an open run.
 */
module ReportProgress {
  import opened Basics
  import opened FileRows
  import opened ReportTypes
  import opened ReportRules
  import opened ReportWorld
  import opened ReportInvariant
  import opened ReportFrames
  import opened ReportSteps
  import opened ReportRuns
  import opened ReportSafety
  import opened ReportNews

  // ---------- runs, put together ----------

  lemma {:induction false} ExecOn(c: Config, w: World, run: seq<Action>, more: seq<Action>)
    ensures Exec(c, w, run + more) == Exec(c, Exec(c, w, run), more)
    decreases |more|
  {
    hide Next;
    if more == [] {
      assert run + more == run;
    } else {
      var n := |more| - 1;
      assert (run + more)[..|run + more| - 1] == run + more[..n];
      ExecOn(c, w, run, more[..n]);
    }
  }

  ghost predicate Leads(c: Config, w: World, w': World) {
    exists run :: w' == Exec(c, w, run)
  }

  lemma LeadsNow(c: Config, w: World)
    ensures Leads(c, w, w)
  {
    assert w == Exec(c, w, []);
  }

  lemma LeadsNext(c: Config, w: World, w1: World, a: Action)
    requires Leads(c, w, w1)
    ensures Leads(c, w, Next(c, w1, a))
  {
    hide Next;
    var run :| w1 == Exec(c, w, run);
    assert (run + [a])[..|run|] == run;
    assert Next(c, w1, a) == Exec(c, w, run + [a]);
  }

  lemma LeadsReachable(c: Config, w: World, w': World)
    requires Reachable(c, w) && Leads(c, w, w')
    ensures Reachable(c, w')
  {
    hide Next, Exec;
    var before :| w == Exec(c, Genesis, before);
    var run :| w' == Exec(c, w, run);
    ExecOn(c, Genesis, before, run);
    assert w' == Exec(c, Genesis, before + run);
  }

  lemma {:induction false} AnUnused(s: set<Guid>) returns (bound: Guid)
    ensures forall x | x in s :: x < bound
  {
    if exists x :: x in s {
      var x :| x in s;
      var rest := AnUnused(s - {x});
      bound := if rest > x then rest else x + 1;
      assert forall y | y in s :: y in s - {x} || y == x;
    } else {
      bound := 0;
    }
  }

  // ---------- one worker's steps ----------

  /** Worker `id` stands at `phase` of job `j`, whose row is `job`. */
  ghost predicate Stands(w: World, j: Guid, job: Job, id: Guid, phase: Phase) {
    id in w.workers && w.workers[id] == Worker(j, phase) && j in w.jobs && w.jobs[j] == job
  }

  /** A step of the worker that leaves Storage alone. */
  ghost predicate Onward(c: Config, w: World, w': World) {
    Leads(c, w, w') && w'.files == w.files && w'.filesPurged == w.filesPurged
  }

  lemma StepOnward(c: Config, w: World, w1: World, a: Action)
    requires Onward(c, w, w1) && ByWorker(a)
    ensures Onward(c, w, Next(c, w1, a))
  {
    LeadsNext(c, w, w1, a);
    if Timely(w1, a) { WorkerWrites(c, w1, a); } else { UntimelyIsNothing(c, w1, a); }
    hide Leads, Next, Committed;
  }

  lemma ClaimStands(c: Config, w: World, j: Guid, id: Guid)
    requires j in w.jobs && Claimable(w.jobs[j], w.clock) && id !in w.past.workers
    ensures Stands(Next(c, w, Claim(w.clock, j, id)), j, Claimed(w.jobs[j], id, c.limits, w.clock), id, Idle)
  {
    hide Claimable, Claimed, NewlyReady;
  }

  /** All but where the workers stand is the same. */
  ghost predicate SameBut(w: World, w': World) {
    w'.store == w.store && w'.past == w.past && w'.clock == w.clock
  }

  lemma RowStands(c: Config, w: World, j: Guid, job: Job, id: Guid)
    requires Stands(w, j, job, id, Idle) && OwnedBy(job, id)
    ensures var w' := Next(c, w, ReadRow(id)); Stands(w', j, job, id, GotRow(job.revision, job.mode)) && SameBut(w, w')
  {
  }

  lemma ItemsStand(c: Config, w: World, j: Guid, job: Job, id: Guid)
    requires Stands(w, j, job, id, GotRow(job.revision, job.mode))
    ensures var w' := Next(c, w, ReadItems(id)); Stands(w', j, job, id, GotItems(job.revision, job.mode, job.items)) && SameBut(w, w')
  {
  }

  lemma ArtifactsStand(c: Config, w: World, j: Guid, job: Job, id: Guid)
    requires Stands(w, j, job, id, GotItems(job.revision, job.mode, job.items))
    ensures var w' := Next(c, w, ReadArtifacts(id));
      Stands(w', j, job, id, Planning(job.revision, job.mode, job.items, job.artifacts)) && SameBut(w, w')
  {
  }

  lemma ReadsStand(c: Config, w: World, j: Guid, job: Job, id: Guid) returns (w': World)
    requires Stands(w, j, job, id, Idle) && OwnedBy(job, id)
    ensures Onward(c, w, w') && SameBut(w, w')
    ensures Stands(w', j, job, id, Planning(job.revision, job.mode, job.items, job.artifacts))
  {
    hide Next, Stands, Onward, OwnedBy;
    var w1 := Next(c, w, ReadRow(id));
    var w2 := Next(c, w1, ReadItems(id));
    w' := Next(c, w2, ReadArtifacts(id));
    RowStands(c, w, j, job, id);
    ItemsStand(c, w1, j, job, id);
    ArtifactsStand(c, w2, j, job, id);
    OnwardNow(c, w);
    StepOnward(c, w, w, ReadRow(id));
    StepOnward(c, w, w1, ReadItems(id));
    StepOnward(c, w, w2, ReadArtifacts(id));
  }

  lemma StartStands(c: Config, w: World, j: Guid, job: Job, id: Guid, i: Guid, a: Guid)
    requires Stands(w, j, job, id, Planning(job.revision, job.mode, job.items, job.artifacts)) && OwnedBy(job, id)
    requires i in job.items && job.items[i].state.Queued? && a !in w.past.artifacts
    ensures Stands(Next(c, w, StartItem(w.clock, id, i, a)), j, Started(job, i, a, c.limits, w.clock), id, Rendering(job.revision, i, a))
  {
    hide Started, NewlyReady;
  }

  lemma RenderStands(c: Config, w: World, j: Guid, job: Job, id: Guid, i: Guid, a: Guid)
    requires Stands(w, j, job, id, Rendering(job.revision, i, a))
    ensures var w' := Next(c, w, Render(id, Rendered(1), true));
      Stands(w', j, job, id, Settling(job.revision, i, a, Rendered(1))) && w'.clock == w.clock
  {
  }

  lemma SettleStands(c: Config, w: World, j: Guid, job: Job, id: Guid, i: Guid, a: Guid)
    requires Stands(w, j, job, id, Settling(job.revision, i, a, Rendered(1))) && OwnedBy(job, id)
    requires i in job.items && a in job.artifacts
    ensures Stands(Next(c, w, Settle(w.clock, id)), j, SettledJob(job, i, a, Rendered(1), w.clock), id, Idle)
  {
    hide SettledJob, NewlyReady, Settled;
  }

  /** Item `i` was rendered, and nothing else in the run's items changed. */
  ghost predicate OneRendered(p: Job, q: Job, i: Guid) {
    && q.items.Keys == p.items.Keys && q.revision == p.revision && q.mode == p.mode && q.state == p.state && q.owner == p.owner
    && q.error == p.error
    && i in p.items && q.items[i].state.Succeeded? && forall k | k in p.items && k != i :: q.items[k] == p.items[k]
  }

  lemma TurnFacts(p: Job, i: Guid, a: Guid, limits: Limits, at: Instant, later: Instant)
    requires i in p.items
    ensures OneRendered(p, SettledJob(Started(p, i, a, limits, at), i, a, Rendered(1), later), i)
    ensures var q := Started(p, i, a, limits, at);
      i in q.items && a in q.artifacts && q.state == p.state && q.owner == p.owner && q.revision == p.revision
  {
  }

  /** One turn of the loop: the worker reads, starts, renders and settles an item that waits. */
  lemma Turn(c: Config, w: World, j: Guid, job: Job, id: Guid, i: Guid) returns (w': World, job': Job)
    requires Stands(w, j, job, id, Idle) && OwnedBy(job, id) && i in job.items && job.items[i].state.Queued?
    ensures Onward(c, w, w') && Stands(w', j, job', id, Idle) && OneRendered(job, job', i)
  {
    hide Next, Stands, Onward, Started, SettledJob, OneRendered;
    var w1 := ReadsStand(c, w, j, job, id);
    var a := AnUnused(w1.past.artifacts.Keys);
    StartStands(c, w1, j, job, id, i, a);
    var w2 := Next(c, w1, StartItem(w1.clock, id, i, a));
    StepOnward(c, w, w1, StartItem(w1.clock, id, i, a));
    var mid := Started(job, i, a, c.limits, w1.clock);
    TurnFacts(job, i, a, c.limits, w1.clock, w1.clock);
    RenderStands(c, w2, j, mid, id, i, a);
    var w3 := Next(c, w2, Render(id, Rendered(1), true));
    StepOnward(c, w, w2, Render(id, Rendered(1), true));
    job' := SettledJob(mid, i, a, Rendered(1), w3.clock);
    TurnFacts(job, i, a, c.limits, w1.clock, w3.clock);
    SettleStands(c, w3, j, mid, id, i, a);
    w' := Next(c, w3, Settle(w3.clock, id));
    StepOnward(c, w, w3, Settle(w3.clock, id));
  }

  function WaitingItems(items: map<Guid, Item>): set<Guid> {
    set i | i in items && items[i].state.Queued?
  }

  /** Whatever waited has succeeded, and nothing else in the run's items changed. */
  ghost predicate AllRendered(p: Job, q: Job) {
    && q.items.Keys == p.items.Keys && q.revision == p.revision && q.mode == p.mode && q.state == p.state && q.owner == p.owner
    && q.error == p.error
    && (forall i | i in p.items ::
          if p.items[i].state.Queued? then q.items[i].state.Succeeded? else q.items[i] == p.items[i])
  }

  lemma RenderedOn(p: Job, q: Job, r: Job, i: Guid)
    requires i in p.items && p.items[i].state.Queued? && OneRendered(p, q, i) && AllRendered(q, r)
    ensures AllRendered(p, r)
  {
  }

  lemma FewerWait(p: Job, q: Job, i: Guid)
    requires i in p.items && p.items[i].state.Queued? && OneRendered(p, q, i)
    ensures |WaitingItems(q.items)| < |WaitingItems(p.items)|
  {
    forall k ensures k in WaitingItems(q.items) <==> k in WaitingItems(p.items) - {i} {
      if k in p.items && k != i { assert q.items[k] == p.items[k]; }
    }
    assert WaitingItems(q.items) == WaitingItems(p.items) - {i};
  }

  lemma OnwardOn(c: Config, w: World, w1: World, w': World)
    requires Onward(c, w, w1) && Onward(c, w1, w')
    ensures Onward(c, w, w')
  {
    hide Exec;
    var run :| w1 == Exec(c, w, run);
    var more :| w' == Exec(c, w1, more);
    ExecOn(c, w, run, more);
    assert w' == Exec(c, w, run + more);
  }

  lemma OnwardNow(c: Config, w: World)
    ensures Onward(c, w, w)
  {
    LeadsNow(c, w);
  }

  /** The loop: until nothing waits. */
  lemma {:induction false} Turns(c: Config, w: World, j: Guid, job: Job, id: Guid) returns (w': World, job': Job)
    requires Stands(w, j, job, id, Idle) && OwnedBy(job, id)
    ensures Onward(c, w, w') && Stands(w', j, job', id, Idle) && AllRendered(job, job')
    decreases |WaitingItems(job.items)|
  {
    hide Stands, Onward;
    if exists i :: i in job.items && job.items[i].state.Queued? {
      var i :| i in job.items && job.items[i].state.Queued?;
      var w1, job1 := Turn(c, w, j, job, id, i);
      FewerWait(job, job1, i);
      w', job' := Turns(c, w1, j, job1, id);
      RenderedOn(job, job1, job', i);
      OnwardOn(c, w, w1, w');
    } else {
      w', job' := w, job;
      OnwardNow(c, w);
    }
  }

  // ---------- the end of the run ----------

  lemma ConcludeStands(c: Config, w: World, j: Guid, job: Job, id: Guid)
    requires Stands(w, j, job, id, Planning(job.revision, job.mode, job.items, job.artifacts)) && NothingQueued(job.items)
    requires !WantsBundle(w.workers[id].phase)
    ensures Stands(Next(c, w, Conclude(id)), j, job, id, Concluding(job.revision, Verdict(job.items), None))
  {
    hide NothingQueued, WantsBundle, Verdict;
  }

  lemma BundleStands(c: Config, w: World, j: Guid, job: Job, id: Guid, a: Guid)
    requires Stands(w, j, job, id, Planning(job.revision, job.mode, job.items, job.artifacts)) && OwnedBy(job, id)
    requires NothingQueued(job.items) && WantsBundle(w.workers[id].phase) && a !in w.past.artifacts
    ensures var w' := Next(c, w, StartBundle(w.clock, id, a));
      && Stands(w', j, WithBundle(job, a, c.limits, w.clock), id, Zipping(job.revision, a, job.items, job.artifacts))
      && w'.store == w.store && w'.clock == w.clock
  {
    hide NothingQueued, WantsBundle, WithBundle, NewlyReady;
  }

  lemma WriteStands(c: Config, w: World, j: Guid, job: Job, id: Guid, a: Guid, artifacts: map<Guid, Artifact>)
    requires Stands(w, j, job, id, Zipping(job.revision, a, job.items, artifacts))
    requires Bundleable(c, w.store, j, job.items, artifacts)
    ensures var w' := Next(c, w, WriteBundle(id, 1));
      Stands(w', j, job, id, Zipped(job.revision, a, job.items, 1)) && w'.clock == w.clock
  {
    hide Bundleable, Archive;
  }

  lemma ReadyStands(c: Config, w: World, j: Guid, job: Job, id: Guid, a: Guid)
    requires Stands(w, j, job, id, Zipped(job.revision, a, job.items, 1)) && OwnedBy(job, id) && a in job.artifacts
    ensures Stands(Next(c, w, ReadyBundle(w.clock, id, true)), j, BundleReady(job, a, 1), id,
                   Concluding(job.revision, Verdict(job.items), None))
  {
    hide BundleReady, NewlyReady, Verdict;
  }

  lemma FailStands(c: Config, w: World, j: Guid, job: Job, id: Guid, a: Guid, artifacts: map<Guid, Artifact>)
    requires Stands(w, j, job, id, Zipping(job.revision, a, job.items, artifacts))
    ensures Stands(Next(c, w, FailBundle(id)), j, job, id, Concluding(job.revision, JobState.Failed, Some("bundle_failed")))
  {
  }

  lemma FinishStands(c: Config, w: World, j: Guid, job: Job, id: Guid, verdict: JobState, error: Option<string>)
    requires Stands(w, j, job, id, Concluding(job.revision, verdict, error)) && OwnedBy(job, id)
    ensures Stands(Next(c, w, Finish(w.clock, id)), j, Finished(job.(error := error), verdict, c.limits, w.clock), id, Leaving)
  {
    hide Finished, NewlyReady;
  }

  lemma ReleaseStands(c: Config, w: World, j: Guid, job: Job, id: Guid)
    requires Stands(w, j, job, id, Leaving) && job.owner == Some(id)
    ensures var w' := Next(c, w, Release(w.clock, id)); j in w'.jobs && w'.jobs[j] == LeaseReleased(job)
  {
    hide NewlyReady;
  }

  /** The run is closed over the items it had, and no lease is left. */
  ghost predicate ClosedOver(p: Job, q: Job) {
    && q.items == p.items && q.mode == p.mode && q.owner.None? && q.leaseUntil.None?
    && (q.state.Completed? || q.state.CompletedWithErrors? || q.state.Failed?)
  }

  lemma EndRun(c: Config, w: World, j: Guid, job: Job, id: Guid, verdict: JobState, error: Option<string>) returns (w': World)
    requires Stands(w, j, job, id, Concluding(job.revision, verdict, error)) && OwnedBy(job, id)
    requires verdict.Completed? || verdict.CompletedWithErrors? || verdict.Failed?
    ensures Onward(c, w, w') && j in w'.jobs && ClosedOver(job, w'.jobs[j]) && w'.jobs[j].error == error
  {
    var q := Finished(job.(error := error), verdict, c.limits, w.clock);
    assert q.items == job.items && q.mode == job.mode && q.state == verdict && q.owner == Some(id) && q.error == error;
    hide Next, Stands, Onward, Finished;
    FinishStands(c, w, j, job, id, verdict, error);
    var w1 := Next(c, w, Finish(w.clock, id));
    OnwardNow(c, w);
    StepOnward(c, w, w, Finish(w.clock, id));
    ReleaseStands(c, w1, j, q, id);
    w' := Next(c, w1, Release(w1.clock, id));
    StepOnward(c, w, w1, Release(w1.clock, id));
  }

  /** Storage still has every file it was handed. */
  ghost predicate NothingWithdrawn(w: World) {
    !w.filesPurged && forall f | f in w.files :: !w.files[f].status.Erased?
  }

  /** Then the bundler finds all it needs. */
  lemma CanBundle(c: Config, w: World, j: Guid)
    requires Reachable(c, w) && LimitsOk(c.limits) && j in w.jobs && !w.jobs[j].state.Purging? && NothingWithdrawn(w)
    ensures Bundleable(c, w.store, j, w.jobs[j].items, w.jobs[j].artifacts)
  {
    var job := w.jobs[j];
    hide Reachable, LimitsOk;
    forall i | i in Successes(job.items)
      ensures exists a | a in job.artifacts :: PdfsOf(job.artifacts, i) == {a} && ReportKey(c.tenant, j, a) in w.store
    {
      OnePdfPerSuccess(c, w, j, i);
      var a :| PdfsOf(job.artifacts, i) == {a};
      assert a in PdfsOf(job.artifacts, i);
      ReadyPdfIsThere(c, w, j, a, i);
    }
  }

  lemma Bundling(c: Config, w: World, j: Guid, job: Job, id: Guid) returns (w': World)
    requires Stands(w, j, job, id, Planning(job.revision, job.mode, job.items, job.artifacts)) && OwnedBy(job, id)
    requires NothingQueued(job.items) && WantsBundle(w.workers[id].phase)
    ensures Onward(c, w, w') && j in w'.jobs && ClosedOver(job, w'.jobs[j])
    ensures Bundleable(c, w.store, j, job.items, job.artifacts) ==> w'.jobs[j].error.None?
  {
    var a := AnUnused(w.past.artifacts.Keys);
    BundleStands(c, w, j, job, id, a);
    hide Next, Stands, Onward, NothingQueued, WantsBundle, Bundleable;
    var w1 := Next(c, w, StartBundle(w.clock, id, a));
    OnwardNow(c, w);
    StepOnward(c, w, w, StartBundle(w.clock, id, a));
    var mid := WithBundle(job, a, c.limits, w.clock);
    assert mid.items == job.items && mid.mode == job.mode && mid.revision == job.revision && OwnedBy(mid, id) && a in mid.artifacts;
    hide WithBundle;
    if Bundleable(c, w.store, j, job.items, job.artifacts) {
      WriteStands(c, w1, j, mid, id, a, job.artifacts);
      var w2 := Next(c, w1, WriteBundle(id, 1));
      StepOnward(c, w, w1, WriteBundle(id, 1));
      ReadyStands(c, w2, j, mid, id, a);
      var w3 := Next(c, w2, ReadyBundle(w2.clock, id, true));
      StepOnward(c, w, w2, ReadyBundle(w2.clock, id, true));
      var ready := BundleReady(mid, a, 1);
      assert ready.items == job.items && ready.mode == job.mode && ready.revision == mid.revision && OwnedBy(ready, id);
      hide BundleReady;
      w' := EndRun(c, w3, j, ready, id, Verdict(job.items), None);
      OnwardOn(c, w, w3, w');
    } else {
      FailStands(c, w1, j, mid, id, a, job.artifacts);
      var w2 := Next(c, w1, FailBundle(id));
      StepOnward(c, w, w1, FailBundle(id));
      w' := EndRun(c, w2, j, mid, id, JobState.Failed, Some("bundle_failed"));
      OnwardOn(c, w, w2, w');
    }
  }

  lemma Ending(c: Config, w: World, j: Guid, job: Job, id: Guid) returns (w': World)
    requires Reachable(c, w) && LimitsOk(c.limits)
    requires Stands(w, j, job, id, Idle) && OwnedBy(job, id) && NothingQueued(job.items)
    ensures Onward(c, w, w') && j in w'.jobs && ClosedOver(job, w'.jobs[j])
    ensures NothingWithdrawn(w) ==> w'.jobs[j].error.None?
  {
    hide Next, Onward, NothingQueued, Reachable, LimitsOk, Bundleable, NothingWithdrawn;
    if NothingWithdrawn(w) { CanBundle(c, w, j); }
    var w1 := ReadsStand(c, w, j, job, id);
    if WantsBundle(w1.workers[id].phase) {
      w' := Bundling(c, w1, j, job, id);
      OnwardOn(c, w, w1, w');
    } else {
      ConcludeStands(c, w1, j, job, id);
      var w2 := Next(c, w1, Conclude(id));
      StepOnward(c, w, w1, Conclude(id));
      w' := EndRun(c, w2, j, job, id, Verdict(job.items), None);
      OnwardOn(c, w, w2, w');
    }
  }

  /** What a new worker makes of the run `p`: every open item succeeds, the others stay, and the run is closed. */
  ghost predicate FinishedRun(p: Job, q: Job) {
    && q.items.Keys == p.items.Keys && q.mode == p.mode && q.owner.None? && q.leaseUntil.None?
    && (q.state.Completed? || q.state.CompletedWithErrors? || q.state.Failed?)
    && (forall i | i in p.items :: if Open(p.items[i].state) then q.items[i].state.Succeeded? else q.items[i] == p.items[i])
  }

  lemma FinishedFacts(p: Job, id: Guid, limits: Limits, at: Instant, mid: Job, q: Job)
    requires AllRendered(Claimed(p, id, limits, at), mid) && ClosedOver(mid, q)
    ensures FinishedRun(p, q) && NothingQueued(mid.items)
  {
    var claimed := Claimed(p, id, limits, at);
    forall i | i in p.items ensures if Open(p.items[i].state) then mid.items[i].state.Succeeded? else mid.items[i] == p.items[i] {
      assert claimed.items[i] == Requeue(p.items[i]);
    }
    forall i | i in mid.items ensures !mid.items[i].state.Queued? {
      assert i in claimed.items;
    }
  }

  lemma NothingLeft(p: Job, mid: Job)
    requires AllRendered(p, mid)
    ensures NothingQueued(mid.items) && mid.state == p.state && mid.owner == p.owner
  {
    forall i | i in mid.items ensures !mid.items[i].state.Queued? {
      assert i in p.items;
    }
  }

  /**
   * Whatever has happened before, an open run that has not expired and whose lease is over
   * can be finished by a new worker on its own: every open item is rendered, the others
   * stay as they are, the run is closed without a lease, and without an error unless
   * Storage has erased some file.
   */
  lemma WorkerCanFinish(c: Config, w: World, j: Guid, id: Guid)
    requires Reachable(c, w) && LimitsOk(c.limits) && j in w.jobs && id !in w.past.workers
    requires w.jobs[j].state.Queued? || w.jobs[j].state.Running?
    requires w.jobs[j].leaseUntil.None? || w.jobs[j].leaseUntil.value <= w.clock
    requires w.jobs[j].expiresAt.None? || w.jobs[j].expiresAt.value > w.clock
    ensures exists run ::
              var w' := Exec(c, w, run);
              && j in w'.jobs && FinishedRun(w.jobs[j], w'.jobs[j])
              && (NothingWithdrawn(w) ==> w'.jobs[j].error.None?)
  {
    var p := w.jobs[j];
    ClaimStands(c, w, j, id);
    var job := Claimed(p, id, c.limits, w.clock);
    assert OwnedBy(job, id);
    hide Next, Stands, NothingQueued, Claimed, AllRendered, ClosedOver, FinishedRun, Exec, Reachable, LimitsOk;
    var w1 := Next(c, w, Claim(w.clock, j, id));
    OnwardNow(c, w);
    StepOnward(c, w, w, Claim(w.clock, j, id));
    var w2, mid := Turns(c, w1, j, job, id);
    NothingLeft(job, mid);
    OnwardOn(c, w, w1, w2);
    LeadsReachable(c, w, w2);
    var w3 := Ending(c, w2, j, mid, id);
    OnwardOn(c, w, w2, w3);
    FinishedFacts(p, id, c.limits, w.clock, mid, w3.jobs[j]);
    var run :| w3 == Exec(c, w, run);
  }

  // ---------- a sweep pass ----------

  /** Pass `s` stands as `sweep`, and the row of its job is `job`. */
  ghost predicate Sweeping(w: World, s: Guid, sweep: Sweep, job: Job) {
    s in w.sweeps && w.sweeps[s] == sweep && sweep.job in w.jobs && w.jobs[sweep.job] == job
  }

  /** No reserved unit of the job is left. */
  ghost predicate Unreserved(w: World, j: Guid) {
    forall e | e in w.ledger && w.ledger[e].job == j :: w.ledger[e].consumed
  }

  lemma SelectSweeps(c: Config, w: World, s: Guid, j: Guid)
    requires s !in w.sweeps && j in w.jobs && !After(w.jobs[j].leaseUntil, w.clock)
    ensures var p := w.jobs[j];
      var w' := Next(c, w, SweepSelect(w.clock, s, j));
      && w'.clock == w.clock
      && Sweeping(w', s, Sweep(j, p.state.Purging?, Due(p.expiresAt, w.clock), Due(p.metadataExpiresAt, w.clock), Selected), p)
  {
    hide Due, After;
  }

  lemma FenceSweeps(c: Config, w: World, s: Guid, sweep: Sweep, job: Job)
    requires Sweeping(w, s, sweep, job) && sweep.phase.Selected? && (sweep.purging || sweep.expired)
    requires !After(job.leaseUntil, w.clock)
    ensures var w' := Next(c, w, SweepFence(w.clock, s));
      Sweeping(w', s, sweep.(phase := PastFence), Fenced(job)) && Unreserved(w', sweep.job)
  {
    hide After, Fenced;
  }

  lemma ListSweeps(c: Config, w: World, s: Guid, sweep: Sweep, job: Job)
    requires Sweeping(w, s, sweep, job) && sweep.phase.PastFence?
    ensures var w' := Next(c, w, SweepList(s));
      var ids := Discarded(job, sweep.purging);
      Sweeping(w', s, sweep.(phase := Erasing(ids, ids)), job) && w'.ledger == w.ledger
  {
    hide Discarded;
  }

  lemma EraseSweeps(c: Config, w: World, s: Guid, sweep: Sweep, job: Job, a: Guid)
    requires Sweeping(w, s, sweep, job) && sweep.phase.Erasing? && a in sweep.phase.left
    ensures var w' := Next(c, w, SweepErase(s, a));
      && Sweeping(w', s, sweep.(phase := Erasing(sweep.phase.ids, sweep.phase.left - {a})), job)
      && w'.ledger == w.ledger && w'.store == w.store - {ReportKey(c.tenant, sweep.job, a)}
  {
    hide ReportKey;
  }

  lemma DropSweeps(c: Config, w: World, s: Guid, sweep: Sweep, job: Job)
    requires Sweeping(w, s, sweep, job) && sweep.phase.Erasing? && sweep.phase.left == {}
    ensures var w' := Next(c, w, SweepDropRows(s));
      && Sweeping(w', s, sweep.(phase := Cleared), WithoutArtifacts(job, sweep.phase.ids))
      && w'.ledger == w.ledger && w'.store == w.store
  {
    hide WithoutArtifacts;
  }

  lemma JudgeKeeps(c: Config, w: World, s: Guid, sweep: Sweep, job: Job)
    requires Sweeping(w, s, sweep, job) && sweep.phase.Cleared? && (!sweep.metadataDue || KeepsPdf(job))
    ensures var w' := Next(c, w, SweepJudge(s));
      w'.ledger == w.ledger && w'.store == w.store && s !in w'.sweeps && sweep.job in w'.jobs && w'.jobs[sweep.job] == job
  {
    hide KeepsPdf;
  }

  lemma JudgeDooms(c: Config, w: World, s: Guid, sweep: Sweep, job: Job)
    requires Sweeping(w, s, sweep, job) && sweep.phase.Cleared? && sweep.metadataDue && !KeepsPdf(job)
    ensures var w' := Next(c, w, SweepJudge(s));
      w'.ledger == w.ledger && w'.store == w.store && Sweeping(w', s, sweep.(phase := Doomed), job)
  {
    hide KeepsPdf;
  }

  lemma DoomSweeps(c: Config, w: World, s: Guid, sweep: Sweep, job: Job)
    requires Sweeping(w, s, sweep, job) && sweep.phase.Doomed?
    ensures var w' := Next(c, w, SweepDropJob(s));
      w'.ledger == w.ledger && w'.store == w.store && s !in w'.sweeps && sweep.job !in w'.jobs
  {
  }

  ghost predicate BytesGone(c: Config, store: map<BlobKey, Blob>, j: Guid, ids: set<Guid>) {
    forall a | a in ids :: ReportKey(c.tenant, j, a) !in store
  }

  /** The pass deletes its listed bytes one after the other. */
  lemma {:induction false} Erasures(c: Config, w: World, s: Guid, sweep: Sweep, job: Job) returns (w': World)
    requires Sweeping(w, s, sweep, job) && sweep.phase.Erasing?
    requires BytesGone(c, w.store, sweep.job, sweep.phase.ids - sweep.phase.left)
    ensures Leads(c, w, w') && Sweeping(w', s, sweep.(phase := Erasing(sweep.phase.ids, {})), job)
    ensures w'.ledger == w.ledger && BytesGone(c, w'.store, sweep.job, sweep.phase.ids)
    decreases |sweep.phase.left|
  {
    hide Next, Leads, Sweeping;
    var p := sweep.phase;
    if exists a :: a in p.left {
      var a :| a in p.left;
      EraseSweeps(c, w, s, sweep, job, a);
      var w1, sweep1 := Next(c, w, SweepErase(s, a)), sweep.(phase := Erasing(p.ids, p.left - {a}));
      assert BytesGone(c, w1.store, sweep.job, p.ids - (p.left - {a}));
      w' := Erasures(c, w1, s, sweep1, job);
      LeadsNow(c, w);
      LeadsNext(c, w, w, SweepErase(s, a));
      LeadsOn(c, w, w1, w');
    } else {
      assert p.left == {} && p.ids - p.left == p.ids;
      w' := w;
      LeadsNow(c, w);
    }
  }

  lemma LeadsOn(c: Config, w: World, w1: World, w': World)
    requires Leads(c, w, w1) && Leads(c, w1, w')
    ensures Leads(c, w, w')
  {
    hide Exec;
    var run :| w1 == Exec(c, w, run);
    var more :| w' == Exec(c, w1, more);
    ExecOn(c, w, run, more);
    assert w' == Exec(c, w, run + more);
  }

  /**
   * What a pass leaves behind: the listed output is gone, the ready PDFs of a run that is
   * not purging are not, and the job goes with its metadata's time once no PDF is left.
   */
  ghost predicate Cleaned(c: Config, w: World, w': World, j: Guid, p: Job) {
    && Unreserved(w', j)
    && (forall a | a in p.artifacts && (p.state.Purging? || !p.artifacts[a].ready || p.artifacts[a].item.None?) ::
          ReportKey(c.tenant, j, a) !in w'.store && (j in w'.jobs ==> a !in w'.jobs[j].artifacts))
    && (j in w'.jobs <==>
          !Due(p.metadataExpiresAt, w.clock)
          || (!p.state.Purging? && exists a :: a in p.artifacts && p.artifacts[a].ready && p.artifacts[a].item.Some?))
    && (j in w'.jobs && !p.state.Purging? ==>
          forall a | a in p.artifacts && p.artifacts[a].ready && p.artifacts[a].item.Some? ::
            a in w'.jobs[j].artifacts && w'.jobs[j].artifacts[a] == p.artifacts[a])
  }

  lemma KeptPdfs(p: Job)
    ensures var q := WithoutArtifacts(Fenced(p), Discarded(Fenced(p), p.state.Purging?));
      && (KeepsPdf(q) <==> !p.state.Purging? && exists a :: a in p.artifacts && p.artifacts[a].ready && p.artifacts[a].item.Some?)
      && (forall a | a in p.artifacts && (p.state.Purging? || !p.artifacts[a].ready || p.artifacts[a].item.None?) ::
            a in Discarded(Fenced(p), p.state.Purging?) && a !in q.artifacts)
      && (!p.state.Purging? ==>
            forall a | a in p.artifacts && p.artifacts[a].ready && p.artifacts[a].item.Some? ::
              a in q.artifacts && q.artifacts[a] == p.artifacts[a])
  {
    var q := WithoutArtifacts(Fenced(p), Discarded(Fenced(p), p.state.Purging?));
    if !p.state.Purging? && exists a :: a in p.artifacts && p.artifacts[a].ready && p.artifacts[a].item.Some? {
      var a :| a in p.artifacts && p.artifacts[a].ready && p.artifacts[a].item.Some?;
      assert a in q.artifacts && q.artifacts[a].ready && q.artifacts[a].item.Some?;
    }
  }

  /** The pass up to the last deleted byte. */
  lemma PassErases(c: Config, w: World, j: Guid, s: Guid) returns (w': World)
    requires j in w.jobs && s !in w.sweeps && !After(w.jobs[j].leaseUntil, w.clock)
    requires w.jobs[j].state.Purging? || Due(w.jobs[j].expiresAt, w.clock)
    ensures var p, job := w.jobs[j], Fenced(w.jobs[j]);
      var ids := Discarded(job, p.state.Purging?);
      && Leads(c, w, w') && Unreserved(w', j) && BytesGone(c, w'.store, j, ids)
      && Sweeping(w', s, Sweep(j, p.state.Purging?, Due(p.expiresAt, w.clock), Due(p.metadataExpiresAt, w.clock), Erasing(ids, {})), job)
  {
    var p := w.jobs[j];
    var sweep := Sweep(j, p.state.Purging?, Due(p.expiresAt, w.clock), Due(p.metadataExpiresAt, w.clock), Selected);
    SelectSweeps(c, w, s, j);
    hide Next, Leads, Sweeping, Fenced, Discarded, Unreserved, Due, After;
    var w1 := Next(c, w, SweepSelect(w.clock, s, j));
    FenceSweeps(c, w1, s, sweep, p);
    var w2, job := Next(c, w1, SweepFence(w1.clock, s)), Fenced(p);
    ListSweeps(c, w2, s, sweep.(phase := PastFence), job);
    var w3, ids := Next(c, w2, SweepList(s)), Discarded(job, p.state.Purging?);
    assert ids - ids == {};
    w' := Erasures(c, w3, s, sweep.(phase := Erasing(ids, ids)), job);
    LeadsNow(c, w);
    LeadsNext(c, w, w, SweepSelect(w.clock, s, j));
    LeadsNext(c, w, w1, SweepFence(w1.clock, s));
    LeadsNext(c, w, w2, SweepList(s));
    LeadsOn(c, w, w3, w');
    Swept(w2, w', j);
  }

  /** The rest of the pass. */
  lemma PassDrops(c: Config, w: World, s: Guid, sweep: Sweep, job: Job) returns (w': World)
    requires Sweeping(w, s, sweep, job) && sweep.phase.Erasing? && sweep.phase.left == {}
    ensures Leads(c, w, w') && w'.ledger == w.ledger && w'.store == w.store && s !in w'.sweeps
    ensures var q := WithoutArtifacts(job, sweep.phase.ids);
      if sweep.metadataDue && !KeepsPdf(q) then sweep.job !in w'.jobs else sweep.job in w'.jobs && w'.jobs[sweep.job] == q
  {
    hide Next, Leads, Sweeping, WithoutArtifacts, KeepsPdf;
    var q, cleared := WithoutArtifacts(job, sweep.phase.ids), sweep.(phase := Cleared);
    DropSweeps(c, w, s, sweep, job);
    var w1 := Next(c, w, SweepDropRows(s));
    var w2 := Next(c, w1, SweepJudge(s));
    LeadsNow(c, w);
    LeadsNext(c, w, w, SweepDropRows(s));
    LeadsNext(c, w, w1, SweepJudge(s));
    if sweep.metadataDue && !KeepsPdf(q) {
      JudgeDooms(c, w1, s, cleared, q);
      DoomSweeps(c, w2, s, cleared.(phase := Doomed), q);
      w' := Next(c, w2, SweepDropJob(s));
      LeadsNext(c, w, w2, SweepDropJob(s));
    } else {
      JudgeKeeps(c, w1, s, cleared, q);
      w' := w2;
    }
  }

  /**
   * Whatever has happened before, a run that has expired or is being purged, and on which
   * no lease is live, can be cleaned by one pass on its own.
   */
  lemma PassCanClean(c: Config, w: World, j: Guid, s: Guid)
    requires j in w.jobs && s !in w.sweeps
    requires w.jobs[j].leaseUntil.None? || w.jobs[j].leaseUntil.value <= w.clock
    requires w.jobs[j].state.Purging? || (w.jobs[j].expiresAt.Some? && w.jobs[j].expiresAt.value <= w.clock)
    ensures exists run :: Cleaned(c, w, Exec(c, w, run), j, w.jobs[j]) && s !in Exec(c, w, run).sweeps
  {
    var p := w.jobs[j];
    var job := Fenced(p);
    var ids := Discarded(job, p.state.Purging?);
    KeptPdfs(p);
    hide Next, Exec, Leads, Sweeping, Fenced, Discarded, WithoutArtifacts, KeepsPdf, Unreserved;
    var w1 := PassErases(c, w, j, s);
    var sweep := Sweep(j, p.state.Purging?, Due(p.expiresAt, w.clock), Due(p.metadataExpiresAt, w.clock), Erasing(ids, {}));
    var w2 := PassDrops(c, w1, s, sweep, job);
    LeadsOn(c, w, w1, w2);
    Swept(w1, w2, j);
    Concludes(c, w, w2, s, j);
  }

  lemma Swept(w: World, w': World, j: Guid)
    requires Unreserved(w, j) && w'.ledger == w.ledger
    ensures Unreserved(w', j)
  {
  }

  lemma Concludes(c: Config, w: World, w': World, s: Guid, j: Guid)
    requires Leads(c, w, w') && j in w.jobs && s !in w'.sweeps && Cleaned(c, w, w', j, w.jobs[j])
    ensures exists run :: Cleaned(c, w, Exec(c, w, run), j, w.jobs[j]) && s !in Exec(c, w, run).sweeps
  {
    hide Exec, Cleaned;
    var run :| w' == Exec(c, w, run);
  }

  // ---------- publication ----------

  lemma Delivered(c: Config, w: World, m: Publish)
    requires m in w.outbox && !w.filesPurged
    requires if m.id in w.files then !Conflicts(w.files[m.id], m) else ValidPublication(c.tenant, m)
    ensures var w' := Next(c, w, DeliverPublish(m)); m.id in w'.files && m.id in w'.acks && w'.jobs == w.jobs
  {
    hide Conflicts, ValidPublication, PublishedRow;
  }

  lemma Marked(c: Config, w: World, id: Guid, j: Guid)
    requires id in w.acks && j in w.jobs && ReadyOutput(w.jobs[j], id)
    ensures var w' := Next(c, w, DeliverAck(id));
      w'.files == w.files && j in w'.jobs && id in w'.jobs[j].artifacts && w'.jobs[j].artifacts[id].filePublished
  {
  }

  /** Until its files are purged, every ready PDF of an organization can still get its file in Storage and its mark. */
  lemma PublicationArrives(c: Config, w: World, j: Guid, a: Guid)
    requires Reachable(c, w) && LimitsOk(c.limits) && !w.filesPurged
    requires j in w.jobs && a in w.jobs[j].artifacts && w.jobs[j].artifacts[a].ready && w.jobs[j].artifacts[a].item.Some?
    ensures exists m :: m in w.outbox && m.id == a &&
              var w' := Next(c, Next(c, w, DeliverPublish(m)), DeliverAck(a));
              a in w'.files && j in w'.jobs && a in w'.jobs[j].artifacts && w'.jobs[j].artifacts[a].filePublished
  {
    ReadyIsAnnounced(c, w, j, a);
    var m :| m in w.outbox && m.id == a;
    assert ReadyOutput(w.jobs[j], a);
    hide Next, Reachable, LimitsOk;
    PublicationNeverConflicts(c, w, m);
    Delivered(c, w, m);
    Marked(c, Next(c, w, DeliverPublish(m)), a, j);
  }

  // ---------- users ----------

  /**
   * A cancellation closes exactly an open run of the user: open items are canceled, the
   * others stay, and only units of open items are given back.
   */
  lemma CancelsExactly(c: Config, w: World, at: Instant, j: Guid, user: Guid)
    requires w.clock <= at && j in w.jobs
    ensures var p, w' := w.jobs[j], Next(c, w, Cancel(at, j, user));
      if p.requestedBy != user || !(p.state.Queued? || p.state.Running?) then w'.jobs == w.jobs && w'.ledger == w.ledger
      else
        && j in w'.jobs && w'.jobs[j].state.Canceled? && w'.jobs[j].revision == p.revision + 1
        && w'.jobs[j].items.Keys == p.items.Keys
        && (forall i | i in p.items ::
              w'.jobs[j].items[i]
              == if p.items[i].state.Queued? || p.items[i].state.Running? then p.items[i].(state := ItemState.Canceled) else p.items[i])
        && (forall e :: e in w'.ledger <==> e in w.ledger && (w.ledger[e].job != j || w.ledger[e].consumed))
  {
  }

  lemma ReadsRetry(c: Config, w: World, at: Instant, r: Guid, j: Guid, user: Guid)
    requires w.clock <= at && j in w.jobs && r !in w.retries
    ensures var p, w' := w.jobs[j], Next(c, w, ReadRetry(at, r, j, user));
      && w'.jobs == w.jobs && w'.ledger == w.ledger
      && if p.requestedBy == user && Retryable(p, at) then w'.clock == at && w'.retries == w.retries[r := RetryRead(j, p.revision)]
         else w' == w
  {
    hide Retryable;
  }

  lemma RetryCommits(c: Config, w: World, at: Instant, r: Guid, j: Guid, month: int, quota: int)
    requires w.clock <= at && j in w.jobs && Reopenable(w.jobs[j]) && FailedItems(w.jobs[j]) * w.ledger.Keys == {}
    requires r in w.retries && w.retries[r] == RetryRead(j, w.jobs[j].revision)
    ensures var p, w' := w.jobs[j], Next(c, w, Retry(at, r, month, quota));
      if ActiveJobs(w.jobs) < c.limits.maxQueuedJobs
         && (FailedItems(p) == {} || UsedIn(w.ledger, month) + |FailedItems(p)| <= quota)
      then w'.jobs == w.jobs[j := RetriedJob(p)] && w'.ledger == Reserved(w.ledger, j, FailedItems(p), month)
      else w'.jobs == w.jobs && w'.ledger == w.ledger
  {
    hide ActiveJobs, UsedIn, FailedItems, Reserved, RetriedJob, Reopenable;
  }

  lemma RetryUnread(c: Config, w: World, at: Instant, r: Guid, month: int, quota: int)
    requires r !in w.retries
    ensures Next(c, w, Retry(at, r, month, quota)) == w
  {
  }

  lemma Retried(p: Job, ledger: map<Guid, Entry>, j: Guid, month: int)
    ensures var q := RetriedJob(p);
      && q.state.Queued? && q.revision == p.revision + 1 && q.owner.None? && q.error.None? && q.items.Keys == p.items.Keys
      && (forall i | i in p.items ::
            q.items[i] == if p.items[i].state.Failed? then p.items[i].(state := ItemState.Queued, error := None) else p.items[i])
    ensures var ledger' := Reserved(ledger, j, FailedItems(p), month);
      && (forall i | i in p.items && p.items[i].state.Failed? :: i in ledger' && ledger'[i] == Entry(j, month, false))
  {
  }

  /**
   * A user's retry, with nobody in between, takes exactly a failed or partly failed run of
   * that user that has not expired, within the queue's cap and the month's quota; then its
   * failed items wait again, each with a unit of quota, and the others stay.
   */
  lemma RetriesExactly(c: Config, w: World, at: Instant, r: Guid, j: Guid, user: Guid, month: int, quota: int)
    requires Reachable(c, w) && LimitsOk(c.limits) && w.clock <= at && j in w.jobs && r !in w.retries
    ensures var p, w' := w.jobs[j], Next(c, Next(c, w, ReadRetry(at, r, j, user)), Retry(at, r, month, quota));
      var again := set i | i in p.items && p.items[i].state.Failed?;
      if p.requestedBy == user && (p.state.Failed? || p.state.CompletedWithErrors?)
         && (p.expiresAt.None? || p.expiresAt.value > at)
         && ActiveJobs(w.jobs) < c.limits.maxQueuedJobs && (again == {} || UsedIn(w.ledger, month) + |again| <= quota)
      then
        && j in w'.jobs && w'.jobs[j].state.Queued? && w'.jobs[j].revision == p.revision + 1 && w'.jobs[j].error.None?
        && w'.jobs[j].items.Keys == p.items.Keys
        && (forall i | i in p.items ::
              w'.jobs[j].items[i]
              == if p.items[i].state.Failed? then p.items[i].(state := ItemState.Queued, error := None) else p.items[i])
        && (forall i | i in again :: i in w'.ledger && w'.ledger[i] == Entry(j, month, false))
      else w'.jobs == w.jobs && w'.ledger == w.ledger
  {
    var p := w.jobs[j];
    RetryNeverCollides(c, w, j);
    ReadsRetry(c, w, at, r, j, user);
    assert FailedItems(p) == set i | i in p.items && p.items[i].state.Failed?;
    assert Retryable(p, at) <==> (p.state.Failed? || p.state.CompletedWithErrors?) && (p.expiresAt.None? || p.expiresAt.value > at);
    Retried(p, w.ledger, j, month);
    hide Next, RetriedJob, Reserved, UsedIn, ActiveJobs, Reachable, LimitsOk, Retryable;
    var w1 := Next(c, w, ReadRetry(at, r, j, user));
    if p.requestedBy == user && Retryable(p, at) {
      RetryCommits(c, w1, at, r, j, month, quota);
    } else {
      RetryUnread(c, w1, at, r, month, quota);
    }
  }
}
