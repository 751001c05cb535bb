/**
 * The reporting transactions as the program runs them: one method a transaction body,
 * updating rows one at a time, and the worker's own loop. Each method is held to the
 * function of ReportRules that the state machine of ReportWorld interleaves.
 */
module ReportStore {
  import opened Basics
  import opened FileRows
  import opened ReportTypes
  import opened ReportRules
  import opened ReportWorld
  import opened ReportInvariant

  /** The rows of `todo` still to be visited keep their old value, all others have the new one. */
  ghost predicate Swept<T>(was: map<Guid, T>, now: map<Guid, T>, todo: set<Guid>, f: T -> T) {
    && now.Keys == was.Keys && todo <= was.Keys
    && forall k | k in was :: now[k] == if k in todo then was[k] else f(was[k])
  }

  class ReportTables {
    const tenant: Tenant
    const limits: Limits
    var jobs: map<Guid, Job>
    var ledger: map<Guid, Entry>
    var outbox: set<Publish>

    constructor (tenant: Tenant, limits: Limits)
      ensures this.tenant == tenant && this.limits == limits && Valid()
      ensures jobs == map[] && ledger == map[] && outbox == {}
    {
      this.tenant, this.limits := tenant, limits;
      jobs, ledger, outbox := map[], map[], {};
    }

    /** The foreign key of an artifact on its item. */
    ghost predicate Valid()
      reads this
    {
      forall j, a | j in jobs && a in jobs[j].artifacts && jobs[j].artifacts[a].item.Some? ::
        jobs[j].artifacts[a].item.value in jobs[j].items
    }

    // ---------- the quota ledger ----------

    /** Reserves one unit an item, or nothing at all. */
    method Reserve(j: Guid, ids: set<Guid>, month: int, quota: int) returns (ok: bool)
      requires forall i | i in ids :: i !in ledger
      modifies this`ledger
      ensures ok <==> ids == {} || UsedIn(old(ledger), month) + |ids| <= quota
      ensures ledger == if ok then Reserved(old(ledger), j, ids, month) else old(ledger)
    {
      if ids != {} && UsedIn(ledger, month) + |ids| > quota { return false; }
      var todo := ids;
      while exists k :: k in todo
        invariant todo <= ids
        invariant ledger == Reserved(old(ledger), j, ids - todo, month)
        decreases |todo|
      {
        var i :| i in todo;
        ledger := ledger[i := Entry(j, month, false)];
        todo := todo - {i};
      }
      ok := true;
    }

    method Settle(i: Guid, succeeded: bool)
      modifies this`ledger
      ensures ledger == Settled(old(ledger), i, succeeded)
    {
      if i in ledger {
        if succeeded {
          ledger := ledger[i := ledger[i].(consumed := true)];
        } else if !ledger[i].consumed {
          ledger := ledger - {i};
        }
      }
    }

    method Release(j: Guid)
      modifies this`ledger
      ensures ledger == Released(old(ledger), j)
    {
      var todo := ledger.Keys;
      while exists k :: k in todo
        invariant todo <= old(ledger).Keys
        invariant forall i :: i in ledger <==>
          i in old(ledger) && (i in todo || !(old(ledger)[i].job == j && !old(ledger)[i].consumed))
        invariant forall i | i in ledger :: ledger[i] == old(ledger)[i]
        decreases |todo|
      {
        var i :| i in todo;
        if ledger[i].job == j && !ledger[i].consumed { ledger := ledger - {i}; }
        todo := todo - {i};
      }
      assert forall i :: i !in todo;
      ghost var kept := Released(old(ledger), j);
      assert forall i :: i in ledger <==> i in kept;
      assert forall i | i in kept :: ledger[i] == kept[i];
      assert ledger == kept;
    }

    // ---------- the frame of every worker transaction ----------

    /** One message an artifact. */
    method AnnounceAll(j: Guid, ids: set<Guid>)
      requires Valid() && j in jobs
      requires forall a | a in ids :: a in jobs[j].artifacts && jobs[j].artifacts[a].item.Some?
      modifies this`outbox
      ensures outbox == old(outbox) + set a | a in ids :: Announce(tenant, j, jobs[j], a, jobs[j].artifacts[a].item.value)
    {
      var job := jobs[j];
      var todo := ids;
      while exists a :: a in todo
        invariant todo <= ids
        invariant forall m :: m in outbox <==>
          m in old(outbox) || exists a :: a in ids && a !in todo && m == Announce(tenant, j, job, a, job.artifacts[a].item.value)
        decreases |todo|
      {
        var a :| a in todo;
        outbox := outbox + {Announce(tenant, j, job, a, job.artifacts[a].item.value)};
        todo := todo - {a};
      }
      assert forall a :: a !in todo;
    }

    /** Announces every PDF that became ready since `before` was read. */
    method PublishNewlyReady(j: Guid, before: Job)
      requires Valid() && j in jobs
      modifies this`outbox
      ensures outbox == old(outbox) + NewlyReady(tenant, j, before, jobs[j])
      ensures forall m :: m in outbox <==>
        m in old(outbox) || (HandsOver(m, tenant, j, jobs[j]) && !(m.id in before.artifacts && before.artifacts[m.id].ready))
    {
      NewlyReadyAre(tenant, j, before, jobs[j]);
      var job := jobs[j];
      var ids := set a | a in job.artifacts && job.artifacts[a].ready && job.artifacts[a].item.Some?
                         && !(a in before.artifacts && before.artifacts[a].ready);
      AnnounceAll(j, ids);
      hide Announce;
      assert (set a | a in ids :: Announce(tenant, j, job, a, job.artifacts[a].item.value)) == NewlyReady(tenant, j, before, job);
    }

    // ---------- the loops over a run's items ----------

    /** An item that was running when its worker went away waits again. */
    method RequeueRunning(j: Guid)
      requires Valid() && j in jobs
      modifies this`jobs
      ensures Valid()
      ensures var job := old(jobs)[j]; jobs == old(jobs)[j := job.(items := map i | i in job.items :: Requeue(job.items[i]))]
    {
      var items := jobs[j].items;
      var todo := items.Keys;
      while exists i :: i in todo
        invariant Swept(jobs[j].items, items, todo, Requeue)
        decreases |todo|
      {
        var i :| i in todo;
        if items[i].state.Running? { items := items[i := items[i].(state := ItemState.Queued)]; }
        todo := todo - {i};
      }
      assert forall i :: i !in todo;
      assert forall i | i in items :: items[i] == Requeue(jobs[j].items[i]);
      assert items == map i | i in jobs[j].items :: Requeue(jobs[j].items[i]);
      jobs := jobs[j := jobs[j].(items := items)];
    }

    /** Items that have not ended are canceled with their run. */
    method CancelOpen(j: Guid)
      requires Valid() && j in jobs
      modifies this`jobs
      ensures Valid()
      ensures var job := old(jobs)[j]; jobs == old(jobs)[j := job.(items := map i | i in job.items :: CancelItem(job.items[i]))]
    {
      var items := jobs[j].items;
      var todo := items.Keys;
      while exists i :: i in todo
        invariant Swept(jobs[j].items, items, todo, CancelItem)
        decreases |todo|
      {
        var i :| i in todo;
        if Open(items[i].state) { items := items[i := items[i].(state := ItemState.Canceled)]; }
        todo := todo - {i};
      }
      assert forall i :: i !in todo;
      assert forall i | i in items :: items[i] == CancelItem(jobs[j].items[i]);
      assert items == map i | i in jobs[j].items :: CancelItem(jobs[j].items[i]);
      jobs := jobs[j := jobs[j].(items := items)];
    }

    /** A retry starts from the failed items only. */
    method RequeueFailed(j: Guid)
      requires Valid() && j in jobs
      modifies this`jobs
      ensures Valid()
      ensures var job := old(jobs)[j]; jobs == old(jobs)[j := job.(items := map i | i in job.items :: RetryItem(job.items[i]))]
    {
      var items := jobs[j].items;
      var todo := items.Keys;
      while exists i :: i in todo
        invariant Swept(jobs[j].items, items, todo, RetryItem)
        decreases |todo|
      {
        var i :| i in todo;
        if items[i].state.Failed? { items := items[i := items[i].(state := ItemState.Queued, error := None)]; }
        todo := todo - {i};
      }
      assert forall i :: i !in todo;
      assert forall i | i in items :: items[i] == RetryItem(jobs[j].items[i]);
      assert items == map i | i in jobs[j].items :: RetryItem(jobs[j].items[i]);
      jobs := jobs[j := jobs[j].(items := items)];
    }

    // ---------- the worker's transactions ----------

    method Claim(j: Guid, worker: Guid, now: Instant) returns (ok: bool)
      requires Valid()
      modifies this`jobs
      ensures Valid()
      ensures ok <==> j in old(jobs) && var p := old(jobs)[j];
        && (p.state.Queued? || p.state.Running?)
        && (p.leaseUntil.None? || p.leaseUntil.value <= now) && (p.expiresAt.None? || p.expiresAt.value > now)
      ensures jobs == if ok then old(jobs)[j := Claimed(old(jobs)[j], worker, limits, now)] else old(jobs)
      ensures ok ==> jobs[j].owner == Some(worker) && jobs[j].leaseUntil == Some(now + limits.itemTimeout + 60)
    {
      if j !in jobs || !Claimable(jobs[j], now) { return false; }
      jobs := jobs[j := jobs[j].(state := JobState.Running, owner := Some(worker), leaseUntil := LeaseEnd(limits, now))];
      RequeueRunning(j);
      ok := true;
    }

    method StartItem(j: Guid, revision: int, worker: Guid, i: Guid, a: Guid, now: Instant) returns (ok: bool)
      requires Valid() && (j in jobs ==> i in jobs[j].items && a !in jobs[j].artifacts)
      modifies this`jobs
      ensures Valid()
      ensures ok <==> j in old(jobs) && Owns(old(jobs)[j], revision, worker)
      ensures jobs == if ok then old(jobs)[j := Started(old(jobs)[j], i, a, limits, now)] else old(jobs)
      ensures ok ==> jobs[j].items[i].state.Running? && jobs[j].items[i].attempt == old(jobs)[j].items[i].attempt + 1
                     && jobs[j].leaseUntil == Some(now + limits.itemTimeout + 60)
                     && jobs[j].artifacts == old(jobs)[j].artifacts[a := Artifact(Some(i), revision, false, false, 0, now)]
    {
      if j !in jobs || !Owns(jobs[j], revision, worker) { return false; }
      var row := jobs[j].items[i].(state := ItemState.Running);
      row := row.(attempt := row.attempt + 1);
      var job := jobs[j].(items := jobs[j].items[i := row], leaseUntil := LeaseEnd(limits, now));
      jobs := jobs[j := job.(artifacts := job.artifacts[a := Artifact(Some(i), job.revision, false, false, 0, now)])];
      ok := true;
    }

    method SettleItem(j: Guid, revision: int, worker: Guid, i: Guid, a: Guid, outcome: Outcome, now: Instant)
      returns (ok: bool)
      requires Valid() && (j in jobs ==> i in jobs[j].items && a in jobs[j].artifacts)
      modifies this
      ensures Valid()
      ensures ok <==> j in old(jobs) && Owns(old(jobs)[j], revision, worker)
      ensures jobs == if ok then old(jobs)[j := SettledJob(old(jobs)[j], i, a, outcome, now)] else old(jobs)
      ensures ledger == if ok then Settled(old(ledger), i, outcome.Rendered?) else old(ledger)
      ensures outbox == if ok then old(outbox) + NewlyReady(tenant, j, old(jobs)[j], jobs[j]) else old(outbox)
      ensures ok ==> jobs[j].items[i]
                     == old(jobs)[j].items[i].(state := if outcome.Rendered? then ItemState.Succeeded else ItemState.Failed,
                                               generatedAt := Some(now),
                                               error := if outcome.Rendered? then None else Some(outcome.code))
      ensures ok && outcome.Rendered? && !old(jobs)[j].artifacts[a].ready && old(jobs)[j].artifacts[a].item == Some(i) ==>
        outbox == old(outbox) + {Publish(a, BlobKey(tenant, ReportPath(j, a), false), outcome.bytes, old(jobs)[j].requestedBy,
                                         now, old(jobs)[j].items[i].sites, "report", j)}
      ensures !(ok && outcome.Rendered?) ==> outbox == old(outbox)
    {
      if j !in jobs || !Owns(jobs[j], revision, worker) { return false; }
      var before := jobs[j];
      var row := before.items[i].(state := if outcome.Rendered? then ItemState.Succeeded else ItemState.Failed);
      Settle(i, row.state.Succeeded?);
      row := row.(error := if outcome.Rendered? then None else Some(outcome.code), generatedAt := Some(now));
      jobs := jobs[j := before.(items := before.items[i := row])];
      if outcome.Rendered? {
        var stored := jobs[j].artifacts[a].(ready := true, bytes := outcome.bytes);
        jobs := jobs[j := jobs[j].(artifacts := jobs[j].artifacts[a := stored])];
      }
      PublishNewlyReady(j, before);
      hide Owns, Settled;
      SettledNews(tenant, j, before, i, a, outcome, now);
      hide NewlyReady, SettledJob;
      ok := true;
    }

    method StartBundle(j: Guid, revision: int, worker: Guid, a: Guid, now: Instant) returns (ok: bool)
      requires Valid() && (j in jobs ==> a !in jobs[j].artifacts)
      modifies this`jobs
      ensures Valid()
      ensures ok <==> j in old(jobs) && Owns(old(jobs)[j], revision, worker)
      ensures jobs == if ok then old(jobs)[j := WithBundle(old(jobs)[j], a, limits, now)] else old(jobs)
      ensures ok ==> jobs[j].leaseUntil == Some(now + limits.itemTimeout + 60)
                     && jobs[j].artifacts == old(jobs)[j].artifacts[a := Artifact(None, revision, false, false, 0, now)]
    {
      if j !in jobs || !Owns(jobs[j], revision, worker) { return false; }
      var job := jobs[j].(leaseUntil := LeaseEnd(limits, now));
      jobs := jobs[j := job.(artifacts := job.artifacts[a := Artifact(None, job.revision, false, false, 0, now)])];
      ok := true;
    }

    method ReadyBundle(j: Guid, revision: int, worker: Guid, a: Guid, bytes: int) returns (ok: bool)
      requires Valid() && (j in jobs ==> a in jobs[j].artifacts)
      modifies this`jobs
      ensures Valid()
      ensures ok <==> j in old(jobs) && Owns(old(jobs)[j], revision, worker)
      ensures jobs == if ok then old(jobs)[j := BundleReady(old(jobs)[j], a, bytes)] else old(jobs)
      ensures ok ==> jobs[j].artifacts[a].ready && jobs[j].artifacts[a].bytes == bytes
    {
      if j !in jobs || !Owns(jobs[j], revision, worker) { return false; }
      var stored := jobs[j].artifacts[a].(ready := true);
      stored := stored.(bytes := bytes);
      jobs := jobs[j := jobs[j].(artifacts := jobs[j].artifacts[a := stored])];
      ok := true;
    }

    method Finish(j: Guid, revision: int, worker: Guid, state: JobState, error: Option<string>, now: Instant) returns (ok: bool)
      requires Valid()
      modifies this`jobs
      ensures Valid()
      ensures ok <==> j in old(jobs) && Owns(old(jobs)[j], revision, worker)
      ensures jobs == if ok then old(jobs)[j := Finished(old(jobs)[j].(error := error), state, limits, now)] else old(jobs)
    {
      if j !in jobs || !Owns(jobs[j], revision, worker) { return false; }
      jobs := jobs[j := jobs[j].(error := error)];
      Close(j, state, now);
      ok := true;
    }

    /** Retention dates are set once, at the first completion. */
    method Close(j: Guid, state: JobState, now: Instant)
      requires Valid() && j in jobs
      modifies this`jobs
      ensures Valid() && jobs == old(jobs)[j := Finished(old(jobs)[j], state, limits, now)]
      ensures old(jobs)[j].expiresAt.None? ==> jobs[j].expiresAt == Some(now + limits.artifactDays * 86400)
      ensures old(jobs)[j].metadataExpiresAt.None? ==>
        jobs[j].metadataExpiresAt
        == Some(now + 86400 * if limits.artifactDays > limits.metadataDays then limits.artifactDays else limits.metadataDays)
    {
      var job := jobs[j].(state := state, completedAt := Some(now));
      if job.expiresAt.None? { job := job.(expiresAt := Some(now + limits.artifactDays * DAY)); }
      if job.metadataExpiresAt.None? {
        var days := if limits.artifactDays >= limits.metadataDays then limits.artifactDays else limits.metadataDays;
        job := job.(metadataExpiresAt := Some(now + days * DAY));
      }
      jobs := jobs[j := job];
    }

    method ReleaseLease(j: Guid, worker: Guid) returns (ok: bool)
      requires Valid()
      modifies this`jobs
      ensures Valid()
      ensures ok <==> j in old(jobs) && old(jobs)[j].owner == Some(worker)
      ensures jobs == if ok then old(jobs)[j := LeaseReleased(old(jobs)[j])] else old(jobs)
    {
      if j !in jobs || jobs[j].owner != Some(worker) { return false; }
      jobs := jobs[j := jobs[j].(owner := None, leaseUntil := None)];
      ok := true;
    }

    // ---------- user commands ----------

    /** One item over all sites for an aggregate, one item a site otherwise. */
    static method BuildItems(ids: seq<Guid>, mode: Mode, sites: seq<Guid>) returns (items: map<Guid, Item>)
      requires |ids| == (if mode.Aggregate? then 1 else |sites|)
      requires forall k, l | 0 <= k < l < |ids| :: ids[k] != ids[l]
      ensures items == NewItems(ids, Groups(mode, sites)) && items.Keys == set i | i in ids
      ensures forall k | 0 <= k < |ids| ::
        items[ids[k]] == Item(ItemState.Queued, 0, if mode.Aggregate? then sites else [sites[k]], None, None)
    {
      var groups := Groups(mode, sites);
      items := map[];
      for k := 0 to |groups|
        invariant items == NewItems(ids[..k], groups[..k])
      {
        items := items[ids[k] := Item(ItemState.Queued, 0, groups[k], None, None)];
        assert ids[..k + 1][..k] == ids[..k] && groups[..k + 1][..k] == groups[..k];
      }
      assert ids[..|groups|] == ids && groups[..|groups|] == groups;
      NewItemsAre(ids, groups);
    }

    method Submit(j: Guid, user: Guid, mode: Mode, sites: seq<Guid>, ids: seq<Guid>, month: int, quota: int, now: Instant)
      returns (ok: bool)
      requires Valid() && j !in jobs && |ids| == (if mode.Aggregate? then 1 else |sites|)
      requires forall k | 0 <= k < |ids| :: ids[k] !in ledger
      requires forall k, l | 0 <= k < l < |ids| :: ids[k] != ids[l]
      modifies this`jobs, this`ledger
      ensures Valid()
      ensures ok <==>
        && 1 <= |sites|
        && (match mode
            case Single => |sites| == 1
            case Bulk => |sites| <= limits.maxBatchItems
            case Aggregate => |sites| <= limits.maxAggregateSites)
        && |set k | k in old(jobs) && (old(jobs)[k].state.Queued? || old(jobs)[k].state.Running?)| < limits.maxQueuedJobs
        && |set i | i in old(ledger) && old(ledger)[i].month == month| + |ids| <= quota
      ensures jobs == if ok then old(jobs)[j := NewJob(user, mode, NewItems(ids, Groups(mode, sites)), now)] else old(jobs)
      ensures ledger == if ok then Reserved(old(ledger), j, (set i | i in ids), month) else old(ledger)
      ensures ok ==> jobs[j].state.Queued? && jobs[j].mode == mode && jobs[j].items.Keys == set i | i in ids
      ensures ok ==> forall k | 0 <= k < |ids| ::
        jobs[j].items[ids[k]] == Item(ItemState.Queued, 0, if mode.Aggregate? then sites else [sites[k]], None, None)
    {
      Counted(jobs, ledger, month);
      hide ActiveJobs, UsedIn;
      if !(1 <= |sites| <= SiteLimit(mode, limits)) { return false; }
      if ActiveJobs(jobs) >= limits.maxQueuedJobs { return false; }
      var items := BuildItems(ids, mode, sites);
      DistinctSize(ids);
      hide NewItems, Groups, Reserved, Active;
      ok := Reserve(j, (set i | i in ids), month, quota);
      if ok {
        Linked(jobs, j, NewJob(user, mode, items, now));
        hide NewJob;
        jobs := jobs[j := NewJob(user, mode, items, now)];
      }
    }

    method Cancel(j: Guid, user: Guid, now: Instant) returns (found: bool)
      requires Valid()
      modifies this`jobs, this`ledger
      ensures Valid()
      ensures found <==> j in old(jobs) && old(jobs)[j].requestedBy == user
      ensures var does := found && Active(old(jobs)[j].state);
        && jobs == (if does then old(jobs)[j := CanceledJob(old(jobs)[j], limits, now)] else old(jobs))
        && ledger == (if does then Released(old(ledger), j) else old(ledger))
        && (does ==> jobs[j].state.Canceled? && forall i | i in jobs[j].items ::
              jobs[j].items[i].state == (if Open(old(jobs)[j].items[i].state) then ItemState.Canceled
                                         else old(jobs)[j].items[i].state))
    {
      if j !in jobs || jobs[j].requestedBy != user { return false; }
      if Active(jobs[j].state) {
        jobs := jobs[j := jobs[j].(revision := jobs[j].revision + 1)];
        Close(j, JobState.Canceled, now);
        Release(j);
        CancelOpen(j);
      }
      found := true;
    }

    method Retry(j: Guid, user: Guid, month: int, quota: int, now: Instant) returns (ok: bool)
      requires Valid() && (j in jobs ==> forall i | i in FailedItems(jobs[j]) :: i !in ledger)
      modifies this`jobs, this`ledger
      ensures Valid()
      ensures ok <==> j in old(jobs) && old(jobs)[j].requestedBy == user
                      && (old(jobs)[j].state.Failed? || old(jobs)[j].state.CompletedWithErrors?)
                      && (old(jobs)[j].expiresAt.None? || old(jobs)[j].expiresAt.value > now)
                      && ActiveJobs(old(jobs)) < limits.maxQueuedJobs
                      && (FailedItems(old(jobs)[j]) == {}
                          || UsedIn(old(ledger), month) + |FailedItems(old(jobs)[j])| <= quota)
      ensures jobs == if ok then old(jobs)[j := RetriedJob(old(jobs)[j])] else old(jobs)
      ensures ledger == if ok then Reserved(old(ledger), j, FailedItems(old(jobs)[j]), month) else old(ledger)
    {
      if j !in jobs || jobs[j].requestedBy != user || !Retryable(jobs[j], now) { return false; }
      if ActiveJobs(jobs) >= limits.maxQueuedJobs { return false; }
      ok := Reserve(j, FailedItems(jobs[j]), month, quota);
      if !ok { return; }
      RequeueFailed(j);
      var job := jobs[j].(state := JobState.Queued, error := None);
      jobs := jobs[j := job.(revision := job.revision + 1, owner := None, leaseUntil := None)];
    }

    // ---------- the recovery sweep, the purge and the acknowledgement ----------

    /** Announces again what Storage has not acknowledged. */
    method Republish(j: Guid)
      requires Valid() && j in jobs
      modifies this`outbox
      ensures outbox == old(outbox) + Unacknowledged(tenant, j, jobs[j])
      ensures forall m :: m in outbox <==>
        m in old(outbox) || (HandsOver(m, tenant, j, jobs[j]) && !jobs[j].artifacts[m.id].filePublished)
    {
      UnacknowledgedAre(tenant, j, jobs[j]);
      var job := jobs[j];
      var ids := set a | a in job.artifacts && job.artifacts[a].ready && job.artifacts[a].item.Some? && !job.artifacts[a].filePublished;
      AnnounceAll(j, ids);
      hide Announce;
      assert (set a | a in ids :: Announce(tenant, j, job, a, job.artifacts[a].item.value)) == Unacknowledged(tenant, j, job);
    }

    /** Nobody who worked on the job before can commit to it after. */
    method Fence(j: Guid, now: Instant) returns (ok: bool)
      requires Valid()
      modifies this`jobs, this`ledger
      ensures Valid()
      ensures ok <==> j in old(jobs) && (old(jobs)[j].leaseUntil.None? || old(jobs)[j].leaseUntil.value <= now)
      ensures ok ==> j in jobs
      ensures ok && (old(jobs)[j].state.Queued? || old(jobs)[j].state.Running?) ==> jobs[j].state.Expired?
      ensures jobs == if ok then old(jobs)[j := Fenced(old(jobs)[j])] else old(jobs)
      ensures ledger == if ok then Released(old(ledger), j) else old(ledger)
    {
      if j !in jobs || After(jobs[j].leaseUntil, now) { return false; }
      Release(j);
      if jobs[j].state.Running? || jobs[j].state.Queued? {
        jobs := jobs[j := jobs[j].(state := JobState.Expired)];
      }
      jobs := jobs[j := jobs[j].(revision := jobs[j].revision + 1, owner := None, leaseUntil := None)];
      ok := true;
    }

    method DropArtifacts(j: Guid, ids: set<Guid>)
      requires Valid() && j in jobs
      modifies this`jobs
      ensures Valid() && jobs == old(jobs)[j := WithoutArtifacts(old(jobs)[j], ids)]
    {
      jobs := jobs[j := jobs[j].(artifacts := jobs[j].artifacts - ids)];
    }

    method Purge(now: Instant)
      requires Valid()
      modifies this`jobs, this`ledger
      ensures Valid() && ledger == map[]
      ensures jobs == map j | j in old(jobs) :: Purged(old(jobs)[j], now)
      ensures forall j | j in jobs :: jobs[j].state.Purging? && jobs[j].expiresAt == jobs[j].metadataExpiresAt == Some(now)
    {
      var todo := jobs.Keys;
      while exists j :: j in todo
        invariant Valid()
        invariant Swept(old(jobs), jobs, todo, job => Purged(job, now))
        decreases |todo|
      {
        var j :| j in todo;
        var job := jobs[j].(state := Purging);
        jobs := jobs[j := job.(revision := job.revision + 1, expiresAt := Some(now), metadataExpiresAt := Some(now))];
        todo := todo - {j};
      }
      assert forall j :: j !in todo;
      assert forall j | j in jobs :: jobs[j] == Purged(old(jobs)[j], now);
      assert jobs == map j | j in old(jobs) :: Purged(old(jobs)[j], now);
      ledger := map[];
    }

    method Acknowledge(id: Guid)
      requires Valid()
      modifies this`jobs
      ensures Valid()
      ensures jobs == map j | j in old(jobs) :: Acknowledged(old(jobs)[j], id)
      ensures forall j, a | j in old(jobs) && a in old(jobs)[j].artifacts ::
        var art := old(jobs)[j].artifacts[a];
        && a in jobs[j].artifacts
        && (jobs[j].artifacts[a].filePublished <==> art.filePublished || (a == id && art.ready && art.item.Some?))
    {
      var todo := jobs.Keys;
      while exists j :: j in todo
        invariant Valid()
        invariant Swept(old(jobs), jobs, todo, job => Acknowledged(job, id))
        decreases |todo|
      {
        var j :| j in todo;
        var job := jobs[j];
        if id in job.artifacts && job.artifacts[id].ready && job.artifacts[id].item.Some? {
          jobs := jobs[j := job.(artifacts := job.artifacts[id := job.artifacts[id].(filePublished := true)])];
        }
        todo := todo - {j};
      }
      assert forall j :: j !in todo;
      assert forall j | j in jobs :: jobs[j] == Acknowledged(old(jobs)[j], id);
      assert jobs == map j | j in old(jobs) :: Acknowledged(old(jobs)[j], id);
    }

    // ---------- the worker ----------

    /** Bundles a bulk run that has no bundle at its revision yet, and closes the run. */
    method Complete(j: Guid, worker: Guid, a: Guid, zipped: Option<int>, now: Instant)
      requires Valid() && j in jobs && Owns(jobs[j], jobs[j].revision, worker)
      requires a !in jobs[j].artifacts && NoneOpen(jobs[j].items)
      modifies this`jobs
      ensures Valid() && j in jobs && jobs == old(jobs)[j := jobs[j]]
      ensures Concluded(old(jobs)[j], jobs[j])
      ensures jobs[j].error.Some? <==> var p := old(jobs)[j];
        p.mode.Bulk? && Successes(p.items) != {} && !HasBundle(p.artifacts, p.revision) && zipped.None?
    {
      var job := jobs[j];
      var state, error := Verdict(job.items), None;
      VerdictTells(job.items);
      hide Verdict;
      if job.mode.Bulk? && Successes(job.items) != {} && !HasBundle(job.artifacts, job.revision) {
        var ok := StartBundle(j, job.revision, worker, a, now);
        if zipped.Some? {
          ok := ReadyBundle(j, job.revision, worker, a, zipped.value);
          assert a in jobs[j].artifacts && jobs[j].artifacts[a].item.None? && jobs[j].artifacts[a].ready
              && jobs[j].artifacts[a].revision == jobs[j].revision;
        } else {
          state, error := JobState.Failed, Some("bundle_failed");
        }
      }
      var ok := Finish(j, job.revision, worker, state, error, now);
    }

    /** One turn of the worker's loop: some waiting item is started, rendered and settled. */
    method RunOne(j: Guid, worker: Guid, a: Guid, outcome: Outcome, now: Instant, ghost p: Job)
      requires Valid() && j in jobs && Owns(jobs[j], jobs[j].revision, worker) && a !in jobs[j].artifacts
      requires exists i :: i in Waiting(jobs[j])
      requires Underway(p, jobs[j])
      modifies this
      ensures Valid() && j in jobs && jobs == old(jobs)[j := jobs[j]]
      ensures Owns(jobs[j], old(jobs)[j].revision, worker) && Underway(p, jobs[j])
      ensures jobs[j].artifacts.Keys == old(jobs)[j].artifacts.Keys + {a}
      ensures |Waiting(jobs[j])| < |Waiting(old(jobs)[j])|
      ensures LedgerOf(old(ledger), j, old(jobs)[j]) ==> LedgerOf(ledger, j, jobs[j])
    {
      var job := jobs[j];
      var i :| i in Waiting(job);
      var ok := StartItem(j, job.revision, worker, i, a, now);
      ok := SettleItem(j, job.revision, worker, i, a, outcome, now);
      hide NewlyReady;
      OneLess(job, jobs[j], i, a, limits, outcome, now);
      OneSettled(old(ledger), j, job, i, a, limits, outcome, now);
      hide Started, SettledJob, Settled, Waiting, Underway, LedgerOf;
    }

    /** The worker's loop: turn after turn, until nothing waits. `n` is the number of attempts made. */
    method RenderAll(j: Guid, worker: Guid, ids: nat -> Guid, outcomes: nat -> Outcome, time: nat -> Instant, ghost p: Job)
      returns (n: nat)
      requires Valid() && j in jobs && Owns(jobs[j], p.revision, worker) && Underway(p, jobs[j])
      requires forall k :: ids(k) !in jobs[j].artifacts
      requires forall k, l :: k != l ==> ids(k) != ids(l)
      modifies this
      ensures Valid() && j in jobs && jobs == old(jobs)[j := jobs[j]]
      ensures Owns(jobs[j], p.revision, worker) && Underway(p, jobs[j]) && NoneOpen(jobs[j].items)
      ensures ids(n) !in jobs[j].artifacts
      ensures LedgerOf(old(ledger), j, old(jobs)[j]) ==> LedgerOf(ledger, j, jobs[j])
    {
      hide LedgerOf, Underway;
      n := 0;
      while exists i :: i in Waiting(jobs[j])
        invariant Valid() && j in jobs && jobs == old(jobs)[j := jobs[j]]
        invariant Owns(jobs[j], p.revision, worker)
        invariant Underway(p, jobs[j])
        invariant forall k | k >= n :: ids(k) !in jobs[j].artifacts
        invariant LedgerOf(old(ledger), j, old(jobs)[j]) ==> LedgerOf(ledger, j, jobs[j])
        decreases |Waiting(jobs[j])|
      {
        RunOne(j, worker, ids(n), outcomes(n), time(n), p);
        n := n + 1;
      }
      NothingWaits(p, jobs[j]);
    }

    /**
     * A worker left alone: it claims the job, renders every waiting item once, settles
     * each, closes the run and lets the lease go. The environment decides how each
     * attempt ends (`outcomes`), whether the archive gets written (`zipped`), the ids
     * (`ids`) and the clock (`time`); all are indexed by the attempt.
     */
    method Run(j: Guid, worker: Guid, ids: nat -> Guid, outcomes: nat -> Outcome, zipped: Option<int>, time: nat -> Instant)
      returns (claimed: bool)
      requires Valid()
      requires j in jobs ==> forall k :: ids(k) !in jobs[j].artifacts
      requires forall k, l :: k != l ==> ids(k) != ids(l)
      modifies this
      ensures Valid()
      ensures claimed <==> j in old(jobs) && var p := old(jobs)[j];
        && (p.state.Queued? || p.state.Running?)
        && (p.leaseUntil.None? || p.leaseUntil.value <= time(0)) && (p.expiresAt.None? || p.expiresAt.value > time(0))
      ensures !claimed ==> jobs == old(jobs) && ledger == old(ledger) && outbox == old(outbox)
      ensures claimed ==> j in jobs && jobs == old(jobs)[j := jobs[j]] && Done(old(jobs)[j], jobs[j])
      ensures claimed && zipped.Some? ==> jobs[j].error.None?
      ensures claimed && LedgerOf(old(ledger), j, old(jobs)[j]) ==> LedgerOf(ledger, j, jobs[j])
    {
      claimed := Claim(j, worker, time(0));
      if !claimed { return; }
      ghost var p := old(jobs)[j];
      ClaimedUnderway(old(ledger), j, p, worker, limits, time(0));
      hide LedgerOf, Underway, Done, Concluded, Ended, Claimed;
      var n := RenderAll(j, worker, ids, outcomes, time, p);
      ghost var q := jobs[j];
      Complete(j, worker, ids(n), zipped, time(n));
      ConcludedIsDone(ledger, j, p, q, jobs[j]);
      var ok := ReleaseLease(j, worker);
    }
  }

  lemma Linked(jobs: map<Guid, Job>, j: Guid, job: Job)
    requires forall k, a | k in jobs && a in jobs[k].artifacts && jobs[k].artifacts[a].item.Some? ::
               jobs[k].artifacts[a].item.value in jobs[k].items
    requires job.artifacts == map[]
    ensures var now := jobs[j := job];
      forall k, a | k in now && a in now[k].artifacts && now[k].artifacts[a].item.Some? ::
        now[k].artifacts[a].item.value in now[k].items
  {
  }

  lemma {:induction false} DistinctSize(ids: seq<Guid>)
    requires forall k, l | 0 <= k < l < |ids| :: ids[k] != ids[l]
    ensures |set i | i in ids| == |ids|
  {
    if ids != [] {
      DistinctSize(ids[1..]);
      assert (set i | i in ids) == (set i | i in ids[1..]) + {ids[0]};
    }
  }

  /** The state a run ends with, if nothing but its items decides it. */
  ghost predicate Tells(state: JobState, items: map<Guid, Item>) {
    && (state.Completed? <==> Successes(items) == items.Keys != {})
    && (state.CompletedWithErrors? <==> {} < Successes(items) < items.Keys)
    && (state.Failed? <==> Successes(items) == {})
  }

  lemma VerdictTells(items: map<Guid, Item>)
    ensures Tells(Verdict(items), items)
  {
    SomeSucceed(items);
    if forall i | i in items :: items[i].state.Succeeded? {
      assert forall i :: i in Successes(items) <==> i in items.Keys;
    } else {
      var k :| k in items && !items[k].state.Succeeded?;
      assert k in items.Keys - Successes(items);
    }
  }

  /** A run ends as its items say, a bulk run with successes only with its bundle; or failed, because the bundle was. */
  ghost predicate Ended(job: Job) {
    if job.error.None? then
      Tells(job.state, job.items) && (job.mode.Bulk? && Successes(job.items) != {} ==> HasBundle(job.artifacts, job.revision))
    else
      job.state.Failed? && job.error == Some("bundle_failed") && job.mode.Bulk? && Successes(job.items) != {}
  }

  /** How a run may be closed: nothing it has made is touched, and it ends as it should. */
  ghost predicate Concluded(p: Job, q: Job) {
    && q.items == p.items && q.owner == p.owner && q.revision == p.revision && q.mode == p.mode && Ended(q)
    && (forall a | a in p.artifacts :: a in q.artifacts && q.artifacts[a] == p.artifacts[a])
    && (p.expiresAt.Some? ==> q.expiresAt == p.expiresAt) && q.expiresAt.Some?
  }

  function Waiting(job: Job): set<Guid> {
    set i | i in job.items && job.items[i].state.Queued?
  }

  /** What a worker on its own has made of the run it claimed as `p`, so far. */
  ghost predicate Underway(p: Job, q: Job) {
    && q.items.Keys == p.items.Keys && q.mode == p.mode && q.revision == p.revision && q.expiresAt == p.expiresAt
    && (forall i | i in p.items ::
          if !Open(p.items[i].state) then q.items[i] == p.items[i]
          else if q.items[i].state.Queued? then q.items[i].attempt == p.items[i].attempt
          else (q.items[i].state.Succeeded? || q.items[i].state.Failed?) && q.items[i].attempt == p.items[i].attempt + 1)
  }

  /** The finished run: each open item was tried once, nothing else was touched, no lease is left. */
  ghost predicate Done(p: Job, q: Job) {
    && q.items.Keys == p.items.Keys && q.revision == p.revision && q.owner.None? && q.leaseUntil.None?
    && (forall i | i in p.items ::
          if !Open(p.items[i].state) then q.items[i] == p.items[i]
          else (q.items[i].state.Succeeded? || q.items[i].state.Failed?) && q.items[i].attempt == p.items[i].attempt + 1)
    && q.mode == p.mode && Ended(q) && q.expiresAt.Some?
  }

  lemma ClaimedUnderway(ledger: map<Guid, Entry>, j: Guid, p: Job, worker: Guid, limits: Limits, now: Instant)
    requires Active(p.state)
    ensures var q := Claimed(p, worker, limits, now);
      && Underway(p, q) && Owns(q, p.revision, worker) && q.artifacts == p.artifacts
      && (LedgerOf(ledger, j, p) ==> LedgerOf(ledger, j, q))
  {
  }

  lemma NothingWaits(p: Job, q: Job)
    requires Underway(p, q) && !exists i :: i in Waiting(q)
    ensures NoneOpen(q.items)
  {
    assert forall i | i in q.items :: i !in Waiting(q);
  }

  lemma ConcludedIsDone(ledger: map<Guid, Entry>, j: Guid, p: Job, q: Job, r: Job)
    requires Underway(p, q) && NoneOpen(q.items) && q.state.Running? && Concluded(q, r)
    ensures Done(p, LeaseReleased(r)) && (LedgerOf(ledger, j, q) ==> LedgerOf(ledger, j, LeaseReleased(r)))
  {
  }

  /** A turn takes one item off the waiting ones and leaves the others alone. */
  lemma OneLess(p: Job, q: Job, i: Guid, a: Guid, limits: Limits, outcome: Outcome, now: Instant)
    requires i in Waiting(p) && a !in p.artifacts && q == SettledJob(Started(p, i, a, limits, now), i, a, outcome, now)
    ensures |Waiting(q)| < |Waiting(p)| && q.artifacts.Keys == p.artifacts.Keys + {a}
    ensures q.owner == p.owner && q.revision == p.revision && q.state == p.state
    ensures forall r | Underway(r, p) :: Underway(r, q)
  {
    assert Waiting(q) == Waiting(p) - {i};
  }

  /** A turn keeps the job's part of the ledger exact. */
  lemma OneSettled(ledger: map<Guid, Entry>, j: Guid, p: Job, i: Guid, a: Guid, limits: Limits, outcome: Outcome, now: Instant)
    requires i in Waiting(p) && a !in p.artifacts && p.state.Running?
    ensures LedgerOf(ledger, j, p) ==>
              LedgerOf(Settled(ledger, i, outcome.Rendered?), j, SettledJob(Started(p, i, a, limits, now), i, a, outcome, now))
  {
  }
}
