/** User commands, the recovery sweep and the organization purge keep the invariant. */
module ReportCommands {
  import opened Basics
  import opened FileRows
  import opened ReportTypes
  import opened ReportRules
  import opened ReportWorld
  import opened ReportInvariant
  import opened ReportFrames
  import opened ReportWorkers

  // ---------- submit ----------

  lemma {:induction false} NewItemsFacts(ids: seq<Guid>, groups: seq<seq<Guid>>)
    requires |ids| == |groups|
    requires forall k | 0 <= k < |groups| :: 1 <= |groups[k]| <= 1000
    ensures var items := NewItems(ids, groups);
      && (forall i :: i in items <==> i in ids)
      && (forall i | i in items :: items[i].state.Queued? && 1 <= |items[i].sites| <= 1000)
  {
    if ids != [] {
      var n := |ids| - 1;
      NewItemsFacts(ids[..n], groups[..n]);
      assert ids == ids[..n] + [ids[n]];
    }
  }

  lemma GroupsFit(mode: Mode, sites: seq<Guid>, limits: Limits)
    requires LimitsOk(limits) && 1 <= |sites| <= SiteLimit(mode, limits)
    ensures var groups := Groups(mode, sites);
      |groups| >= 1 && forall k | 0 <= k < |groups| :: 1 <= |groups[k]| <= 1000
  {
  }

  /** A job whose ids were never used before, with every item queued and reserved. */
  ghost predicate Newborn(w: World, j: Guid, job: Job) {
    && j !in w.past.jobs
    && job.state.Queued? && job.error.None? && job.artifacts == map[] && job.owner.None? && job.revision == 0
    && forall i | i in job.items ::
      i !in w.past.itemHome && job.items[i].state.Queued? && 1 <= |job.items[i].sites| <= 1000
  }

  function Born(past: History, j: Guid, job: Job): History {
    past.(jobs := past.jobs + {j}, itemHome := past.itemHome + map i | i in job.items :: j)
  }

  lemma BirthLedger(jobs: map<Guid, Job>, ledger: map<Guid, Entry>, past: History, j: Guid, job: Job, month: int)
    requires HomesFit(jobs, past) && LedgerFits(jobs, ledger, past.itemHome)
    requires j !in past.jobs && job.state.Queued?
    requires forall i | i in job.items :: i !in past.itemHome && job.items[i].state.Queued?
    ensures LedgerFits(jobs[j := job], Reserved(ledger, j, job.items.Keys, month), Born(past, j, job).itemHome)
  {
    var jobs', ledger', home' := jobs[j := job], Reserved(ledger, j, job.items.Keys, month), Born(past, j, job).itemHome;
    forall k | k in jobs' ensures LedgerOf(ledger', k, jobs'[k]) {
      if k != j { assert HomeOf(k, jobs[k], past) && LedgerOf(ledger, k, jobs[k]); }
    }
    forall e | e in ledger' ensures EntryFits(e, ledger'[e], jobs', home') {
      if e !in job.items { assert EntryFits(e, ledger[e], jobs, past.itemHome); }
    }
  }

  lemma BirthHomes(jobs: map<Guid, Job>, past: History, j: Guid, job: Job)
    requires HomesFit(jobs, past) && j !in past.jobs && job.artifacts == map[]
    requires forall i | i in job.items :: i !in past.itemHome
    ensures HomesFit(jobs[j := job], Born(past, j, job)) && j !in jobs
  {
    forall k | k in jobs ensures k in past.jobs && HomeOf(k, jobs[k], Born(past, j, job)) {
      assert HomeOf(k, jobs[k], past);
    }
  }

  lemma BirthFits(clock: Instant, job: Job, j: Guid, bundles: set<Bundle>)
    requires job.state.Queued? && job.error.None? && job.artifacts == map[]
    requires forall i | i in job.items :: job.items[i].state.Queued? && 1 <= |job.items[i].sites| <= 1000
    requires forall b | b in bundles :: b.job != j
    ensures JobFits(job) && OffersBundle(clock, job) && BundleOf(j, job, bundles)
  {
    assert forall a, i :: !ReadyPdf(job, a, i);
  }

  lemma BirthBytes(c: Config, w: World, j: Guid, job: Job)
    requires Inv(c, w) && Newborn(w, j, job)
    ensures BytesFit(c, w.jobs[j := job], w.store, w.files, w.filesPurged) && AcksFit(w.jobs[j := job], w.acks, w.files, w.filesPurged)
  {
    Tables(c, w);
    hide Inv, JobsFit, HomesFit, WorkersFit, SweepsFit, OutboxFits, FilesFit, LedgerFits, SuccessesFit, BundlesFit, OffersFit;
    assert BytesOf(c, j, job, w.store, w.files, w.filesPurged);
  }

  lemma BirthTables(c: Config, w: World, at: Instant, j: Guid, job: Job)
    requires Inv(c, w) && w.clock <= at && Newborn(w, j, job)
    ensures var jobs', past' := w.jobs[j := job], Born(w.past, j, job);
      && JobsFit(jobs') && HomesFit(jobs', past') && SuccessesFit(jobs', past') && BundlesFit(jobs', past')
      && OffersFit(at, jobs') && BytesFit(c, jobs', w.store, w.files, w.filesPurged)
      && AcksFit(jobs', w.acks, w.files, w.filesPurged)
  {
    hide WorkersFit, SweepsFit, OutboxFits, FilesFit, LedgerFits, JobFits, HomeOf, BundleOf, BytesFit, AcksFit;
    BirthBytes(c, w, j, job);
    BirthFits(at, job, j, w.past.bundles);
    BirthHomes(w.jobs, w.past, j, job);
  }

  lemma BirthBystanders(c: Config, w: World, at: Instant, j: Guid, job: Job)
    requires Inv(c, w) && w.clock <= at && Newborn(w, j, job)
    ensures var jobs', past' := w.jobs[j := job], Born(w.past, j, job);
      && WorkersFit(c, jobs', w.workers, w.store, past') && SweepsFit(at, jobs', w.sweeps, past')
      && OutboxFits(c, jobs', past'.artifacts, w.outbox) && FilesFit(c, jobs', past'.artifacts, w.files)
  {
    hide JobsFit, HomesFit, LedgerFits, SuccessesFit, BundlesFit, OffersFit, BytesFit, AcksFit, PhaseFits;
    var jobs', past' := w.jobs[j := job], Born(w.past, j, job);
    forall k | k in w.workers ensures WorkerFits(c, jobs', k, w.workers[k], w.store, past') {
      assert WorkerFits(c, w.jobs, k, w.workers[k], w.store, w.past);
    }
    forall s | s in w.sweeps ensures SweepFits(at, jobs', w.sweeps[s], past') {
      assert SweepFits(w.clock, w.jobs, w.sweeps[s], w.past);
    }
    forall m | m in w.outbox ensures MessageFits(c, jobs', past'.artifacts, m) {
      assert MessageFits(c, w.jobs, w.past.artifacts, m);
    }
    forall id | id in w.files ensures RowFits(c, jobs', past'.artifacts, id, w.files[id]) {
      assert RowFits(c, w.jobs, w.past.artifacts, id, w.files[id]);
    }
  }

  lemma BirthKeeps(c: Config, w: World, at: Instant, j: Guid, job: Job, month: int)
    requires Inv(c, w) && w.clock <= at && Newborn(w, j, job)
    ensures Inv(c, w.(clock := at, jobs := w.jobs[j := job],
                      ledger := Reserved(w.ledger, j, job.items.Keys, month), past := Born(w.past, j, job)))
  {
    Tables(c, w);
    hide JobsFit, HomesFit, LedgerFits, SuccessesFit, BundlesFit, OffersFit, WorkersFit, SweepsFit, BytesFit, OutboxFits,
      FilesFit, AcksFit;
    BirthLedger(w.jobs, w.ledger, w.past, j, job, month);
    BirthTables(c, w, at, j, job);
    BirthBystanders(c, w, at, j, job);
  }

  lemma SubmitCommits(c: Config, w: World, at: Instant, j: Guid, user: Guid, mode: Mode, sites: seq<Guid>, ids: seq<Guid>, month: int)
    requires Inv(c, w) && LimitsOk(c.limits) && w.clock <= at
    requires j !in w.past.jobs && FreshItems(w, ids) && |ids| == |Groups(mode, sites)| && 1 <= |sites| <= SiteLimit(mode, c.limits)
    ensures var groups := Groups(mode, sites);
      Inv(c, w.(clock := at,
                jobs := w.jobs[j := NewJob(user, mode, NewItems(ids, groups), at)],
                ledger := Reserved(w.ledger, j, (set i | i in ids), month),
                past := w.past.(jobs := w.past.jobs + {j}, itemHome := w.past.itemHome + map i | i in ids :: j)))
  {
    hide Inv;
    var groups := Groups(mode, sites);
    GroupsFit(mode, sites, c.limits);
    NewItemsFacts(ids, groups);
    var job := NewJob(user, mode, NewItems(ids, groups), at);
    forall i | i in job.items ensures i !in w.past.itemHome {
      assert i in ids;
      var k :| 0 <= k < |ids| && ids[k] == i;
    }
    BirthKeeps(c, w, at, j, job, month);
    var keys := set i | i in ids;
    assert forall i :: i in job.items.Keys <==> i in keys;
    assert job.items.Keys == keys;
    assert (map i | i in job.items :: j) == (map i | i in ids :: j);
  }

  lemma SubmitKeeps(c: Config, w: World, at: Instant, j: Guid, user: Guid, mode: Mode, sites: seq<Guid>, ids: seq<Guid>,
                    month: int, quota: int)
    requires Inv(c, w) && LimitsOk(c.limits) && w.clock <= at
    ensures Inv(c, ApplySubmit(c, w, at, j, user, mode, sites, ids, month, quota))
  {
    hide Inv;
    if j !in w.past.jobs && FreshItems(w, ids) && |ids| == |Groups(mode, sites)| && 1 <= |sites| <= SiteLimit(mode, c.limits) {
      SubmitCommits(c, w, at, j, user, mode, sites, ids, month);
    }
  }

  // ---------- cancel and retry ----------

  /** Nobody owns a job that is not running. */
  lemma NobodyOwns(c: Config, w: World, j: Guid, q: Job)
    requires Inv(c, w) && j in w.jobs && !q.state.Running? && q.artifacts == w.jobs[j].artifacts
    requires q.owner == w.jobs[j].owner || q.owner.None?
    ensures WorkersFit(c, w.jobs[j := q], w.workers, w.store, w.past)
  {
    hide JobsFit, HomesFit, LedgerFits, SuccessesFit, BundlesFit, OffersFit, SweepsFit, BytesFit, OutboxFits, FilesFit, AcksFit;
    forall k | k in w.workers ensures WorkerFits(c, w.jobs[j := q], k, w.workers[k], w.store, w.past) {
      BystanderKeeps(c, w.jobs, j, q, k, w.workers[k], w.store, w.past, w.past);
    }
  }

  lemma CanceledFits(clock: Instant, p: Job, limits: Limits, now: Instant)
    requires JobFits(p) && Active(p.state) && clock <= now
    ensures var q := CanceledJob(p, limits, now);
      && SameOutput(p, q) && ItemsFit(q) && SweepSafe(clock, p, now, q) && OffersBundle(now, q)
      && q.artifacts == p.artifacts && q.owner == p.owner && !Active(q.state) && !q.state.Purging?
      && (forall i | i in p.items :: q.items[i].state.Succeeded? <==> p.items[i].state.Succeeded?)
  {
  }

  lemma CancelKeeps(c: Config, w: World, at: Instant, j: Guid, user: Guid)
    requires Inv(c, w) && w.clock <= at
    ensures Inv(c, ApplyCancel(c, w, at, j, user))
  {
    if j in w.jobs && w.jobs[j].requestedBy == user && Active(w.jobs[j].state) {
      hide Inv, JobFits, HomeOf, FlagsOf, SameOutput, ItemsFit, SweepSafe, OffersBundle, HomesFit, LedgerFits, WorkersFit;
      Tables(c, w);
      AtJob(c, w, j);
      var q := CanceledJob(w.jobs[j], c.limits, at);
      CanceledFits(w.clock, w.jobs[j], c.limits, at);
      NobodyOwns(c, w, j, q);
      ReleaseFits(w.jobs, w.ledger, w.past, j, q);
      QuietUpdate(c, w, at, j, q, Released(w.ledger, j));
    }
  }

  /** A transaction outside the workers that leaves the output alone. */
  lemma QuietUpdate(c: Config, w: World, at: Instant, j: Guid, q: Job, ledger: map<Guid, Entry>)
    requires Inv(c, w) && j in w.jobs && w.clock <= at
    requires SameOutput(w.jobs[j], q) && ItemsFit(q) && q.artifacts == w.jobs[j].artifacts
    requires LedgerFits(w.jobs[j := q], ledger, w.past.itemHome)
    requires OffersBundle(at, q)
    requires SweepSafe(w.clock, w.jobs[j], at, q) || SweepsFit(at, w.jobs[j := q], w.sweeps, w.past)
    requires WorkersFit(c, w.jobs[j := q], w.workers, w.store, w.past)
    ensures Inv(c, w.(clock := at, jobs := w.jobs[j := q], ledger := ledger))
  {
    hide Inv, ItemsFit, LedgerFits, OffersBundle, SweepSafe, SweepsFit, WorkersFit, SameOutput;
    QuietCommit(c, w, w.(clock := at, jobs := w.jobs[j := q], ledger := ledger), j, q);
  }

  lemma RetriedFits(p: Job, now: Instant)
    requires JobFits(p) && Reopenable(p)
    ensures var q := RetriedJob(p);
      && SameOutput(p, q) && ItemsFit(q) && OffersBundle(now, q) && q.artifacts == p.artifacts && q.owner.None?
  {
  }

  /** A retry, also a late one, never meets a pass that has fenced its job: the fence would have changed the revision. */
  lemma RetrySweeps(clock: Instant, at: Instant, jobs: map<Guid, Job>, sweeps: map<Guid, Sweep>, past: History, j: Guid)
    requires SweepsFit(clock, jobs, sweeps, past) && clock <= at && j in jobs && Reopenable(jobs[j])
    requires forall s | s in sweeps && sweeps[s].job == j :: sweeps[s].phase.Selected?
    ensures SweepsFit(at, jobs[j := RetriedJob(jobs[j])], sweeps, past)
  {
    var jobs' := jobs[j := RetriedJob(jobs[j])];
    forall s | s in sweeps ensures SweepFits(at, jobs', sweeps[s], past) {
      assert SweepFits(clock, jobs, sweeps[s], past);
      hide FailedItems, RetryItem, Outdated, KeepsPdf, Discarded;
    }
  }

  /** Failed items hold no unit, so reserving them again never collides. */
  lemma RetryLedger(jobs: map<Guid, Job>, ledger: map<Guid, Entry>, past: History, j: Guid, month: int)
    requires HomesFit(jobs, past) && LedgerFits(jobs, ledger, past.itemHome) && j in jobs
    requires (jobs[j].state.Failed? || jobs[j].state.CompletedWithErrors?) && NoneOpen(jobs[j].items)
    ensures FailedItems(jobs[j]) * ledger.Keys == {}
    ensures LedgerFits(jobs[j := RetriedJob(jobs[j])], Reserved(ledger, j, FailedItems(jobs[j]), month), past.itemHome)
  {
    assert LedgerOf(ledger, j, jobs[j]);
    forall i | i in FailedItems(jobs[j]) ensures i !in ledger {
    }
    LedgerUpdate(jobs, ledger, past, j, RetriedJob(jobs[j]), Reserved(ledger, j, FailedItems(jobs[j]), month));
  }

  lemma RetriesAside(c: Config, w: World, retries: map<Guid, RetryRead>)
    requires Inv(c, w)
    ensures Inv(c, w.(retries := retries))
  {
  }

  lemma ReadRetryKeeps(c: Config, w: World, at: Instant, r: Guid, j: Guid, user: Guid)
    requires Inv(c, w) && w.clock <= at
    ensures Inv(c, ApplyReadRetry(w, at, r, j, user))
  {
    ClockKeeps(c, w, at);
    RetriesAside(c, w.(clock := at), ApplyReadRetry(w, at, r, j, user).retries);
  }

  lemma RetryKeeps(c: Config, w: World, at: Instant, r: Guid, month: int, quota: int)
    requires Inv(c, w) && RetriesFit(w) && w.clock <= at
    ensures Inv(c, ApplyRetry(c, w, at, r, month, quota))
  {
    RetriesAside(c, w, w.retries - {r});
    if r in w.retries {
      var j := w.retries[r].job;
      if j in w.jobs && w.jobs[j].revision == w.retries[r].revision && Reopenable(w.jobs[j]) {
        assert forall s | s in w.sweeps && w.sweeps[s].job == j :: w.sweeps[s].phase.Selected?;
        assert JobFits(w.jobs[j]);
        RetryCommits(c, DropRetry(w, r), at, j, month);
      }
    }
    hide Inv, ActiveJobs, UsedIn, FailedItems, RetriedJob, Reserved, RetriesFit, JobFits;
  }

  lemma RetryCommits(c: Config, w: World, at: Instant, j: Guid, month: int)
    requires Inv(c, w) && w.clock <= at && j in w.jobs && Reopenable(w.jobs[j]) && JobFits(w.jobs[j])
    requires forall s | s in w.sweeps && w.sweeps[s].job == j :: w.sweeps[s].phase.Selected?
    ensures Inv(c, w.(clock := at, jobs := w.jobs[j := RetriedJob(w.jobs[j])],
                      ledger := Reserved(w.ledger, j, FailedItems(w.jobs[j]), month)))
  {
    assert NoneOpen(w.jobs[j].items);
    hide Inv, HomeOf, FlagsOf, SameOutput, SweepSafe, OffersBundle, HomesFit, LedgerFits, WorkersFit, SweepsFit;
    Tables(c, w);
    var q := RetriedJob(w.jobs[j]);
    RetriedFits(w.jobs[j], at);
    RetrySweeps(w.clock, at, w.jobs, w.sweeps, w.past, j);
    NobodyOwns(c, w, j, q);
    RetryLedger(w.jobs, w.ledger, w.past, j, month);
    QuietUpdate(c, w, at, j, q, Reserved(w.ledger, j, FailedItems(w.jobs[j]), month));
  }

  // ---------- the recovery sweep ----------

  lemma ClockKeeps(c: Config, w: World, at: Instant)
    requires Inv(c, w) && w.clock <= at
    ensures Inv(c, w.(clock := at))
  {
    SweepsWait(w.clock, at, w.jobs, w.sweeps, w.past);
  }

  lemma SweepTableKeeps(c: Config, w: World, sweeps: map<Guid, Sweep>)
    requires Inv(c, w) && SweepsFit(w.clock, w.jobs, sweeps, w.past)
    ensures Inv(c, w.(sweeps := sweeps))
  {
  }

  lemma SweepSelectKeeps(c: Config, w: World, at: Instant, s: Guid, j: Guid)
    requires Inv(c, w) && w.clock <= at
    ensures Inv(c, ApplySweepSelect(w, at, s, j))
  {
    if s !in w.sweeps && j in w.jobs && !After(w.jobs[j].leaseUntil, at) {
      AtJob(c, w, j);
      hide Inv;
      var job := w.jobs[j];
      ClockKeeps(c, w, at);
      var now := w.(clock := at);
      Tables(c, now);
      var sweep := Sweep(j, job.state.Purging?, Due(job.expiresAt, at), Due(job.metadataExpiresAt, at), Selected);
      SweepTableKeeps(c, now, w.sweeps[s := sweep]);
      assert ApplySweepSelect(w, at, s, j) == now.(sweeps := w.sweeps[s := sweep]);
    }
  }

  lemma SweepRepublishKeeps(c: Config, w: World, s: Guid)
    requires Inv(c, w)
    ensures Inv(c, ApplySweepRepublish(c, w, s))
  {
    if s in w.sweeps && w.sweeps[s].job in w.jobs {
      var j := w.sweeps[s].job;
      AtJob(c, w, j);
      forall m | m in Unacknowledged(c.tenant, j, w.jobs[j]) ensures MessageFits(c, w.jobs, w.past.artifacts, m) {
      }
    }
  }

  lemma FencedFits(clock: Instant, p: Job, now: Instant)
    requires JobFits(p) && clock <= now && (p.state.Purging? || Due(p.expiresAt, now)) && OffersBundle(clock, p)
    ensures var q := Fenced(p);
      && SameOutput(p, q) && ItemsFit(q) && SweepSafe(clock, p, now, q) && OffersBundle(now, q)
      && q.artifacts == p.artifacts && q.owner.None? && !Active(q.state) && (q.state.Purging? <==> p.state.Purging?)
      && q.items == p.items && Gone(q, now) && Outdated(q)
  {
  }

  lemma SweepFenceCommits(c: Config, w: World, at: Instant, s: Guid)
    requires Inv(c, w) && w.clock <= at && s in w.sweeps && w.sweeps[s].phase.Selected?
    requires w.sweeps[s].purging || w.sweeps[s].expired
    requires w.sweeps[s].job in w.jobs
    ensures Inv(c, MoveSweep(w, s, PastFence).(clock := at, jobs := w.jobs[w.sweeps[s].job := Fenced(w.jobs[w.sweeps[s].job])],
                                               ledger := Released(w.ledger, w.sweeps[s].job)))
  {
    var j := w.sweeps[s].job;
    assert SweepFits(w.clock, w.jobs, w.sweeps[s], w.past);
    AtJob(c, w, j);
    AtOffer(c, w, j);
    Tables(c, w);
    hide Inv, HomeOf, FlagsOf, SameOutput, SweepSafe, OffersBundle, HomesFit, LedgerFits, WorkersFit, SweepsFit, ItemsFit, Outdated, JobFits;
    var q := Fenced(w.jobs[j]);
    FencedFits(w.clock, w.jobs[j], at);
    NobodyOwns(c, w, j, q);
    ReleaseFits(w.jobs, w.ledger, w.past, j, q);
    QuietUpdate(c, w, at, j, q, Released(w.ledger, j));
    var w1 := w.(clock := at, jobs := w.jobs[j := q], ledger := Released(w.ledger, j));
    MoveSweepKeeps(c, w1, s, PastFence);
    assert MoveSweep(w1, s, PastFence)
        == MoveSweep(w, s, PastFence).(clock := at, jobs := w.jobs[j := q], ledger := Released(w.ledger, j));
  }

  lemma MoveSweepKeeps(c: Config, w: World, s: Guid, phase: SweepPhase)
    requires Inv(c, w) && s in w.sweeps
    requires w.sweeps[s].job in w.jobs && !phase.Selected? ==> Gone(w.jobs[w.sweeps[s].job], w.clock) && Outdated(w.jobs[w.sweeps[s].job])
    requires w.sweeps[s].job in w.jobs && phase.Doomed? ==> !KeepsPdf(w.jobs[w.sweeps[s].job])
    requires phase.Erasing? ==>
               && phase.left <= phase.ids
               && forall a | a in phase.ids ::
                    && a in w.past.artifacts && w.past.artifacts[a].job == w.sweeps[s].job
                    && (w.sweeps[s].job in w.jobs && a in w.jobs[w.sweeps[s].job].artifacts ==>
                          a in Discarded(w.jobs[w.sweeps[s].job], w.jobs[w.sweeps[s].job].state.Purging?))
    ensures Inv(c, MoveSweep(w, s, phase))
  {
    assert SweepFits(w.clock, w.jobs, w.sweeps[s], w.past);
  }

  lemma SweepFenceKeeps(c: Config, w: World, at: Instant, s: Guid)
    requires Inv(c, w) && w.clock <= at
    ensures Inv(c, ApplySweepFence(w, at, s))
  {
    Tables(c, w);
    hide Inv, Fenced, Released, MoveSweep, SweepFits;
    if s in w.sweeps && w.sweeps[s].phase.Selected? && (w.sweeps[s].purging || w.sweeps[s].expired) {
      var j := w.sweeps[s].job;
      if j !in w.jobs || After(w.jobs[j].leaseUntil, at) {
        SweepTableKeeps(c, w, w.sweeps - {s});
      } else {
        SweepFenceCommits(c, w, at, s);
      }
    }
  }

  lemma SweepListKeeps(c: Config, w: World, s: Guid)
    requires Inv(c, w)
    ensures Inv(c, ApplySweepList(w, s))
  {
    if s in w.sweeps && w.sweeps[s].phase.PastFence? {
      var j := w.sweeps[s].job;
      assert SweepFits(w.clock, w.jobs, w.sweeps[s], w.past);
      if j in w.jobs { AtJob(c, w, j); }
      hide Inv, SweepFits, JobFits, FlagsOf;
      var ids := if j in w.jobs then Discarded(w.jobs[j], w.sweeps[s].purging) else {};
      MoveSweepKeeps(c, w, s, Erasing(ids, ids));
    }
  }

  /** Erasing a listed key takes no bytes that a live run or a ready PDF needs. */
  lemma ErasedBytes(c: Config, w: World, s: Guid, a: Guid)
    requires Inv(c, w) && s in w.sweeps && w.sweeps[s].phase.Erasing? && a in w.sweeps[s].phase.ids
    ensures var store' := w.store - {ReportKey(c.tenant, w.sweeps[s].job, a)};
      BytesFit(c, w.jobs, store', w.files, w.filesPurged) && WorkersFit(c, w.jobs, w.workers, store', w.past)
  {
    hide JobsFit, HomesFit, LedgerFits, SuccessesFit, BundlesFit, OffersFit, OutboxFits, FilesFit, AcksFit;
    var j := w.sweeps[s].job;
    var store' := w.store - {ReportKey(c.tenant, j, a)};
    assert SweepFits(w.clock, w.jobs, w.sweeps[s], w.past);
    forall k | k in w.jobs ensures BytesOf(c, k, w.jobs[k], store', w.files, w.filesPurged) {
      assert BytesOf(c, k, w.jobs[k], w.store, w.files, w.filesPurged);
    }
    forall id | id in w.workers ensures WorkerFits(c, w.jobs, id, w.workers[id], store', w.past) {
      assert WorkerFits(c, w.jobs, id, w.workers[id], w.store, w.past);
    }
  }

  lemma StoreKeeps(c: Config, w: World, store: map<BlobKey, Blob>)
    requires Inv(c, w) && BytesFit(c, w.jobs, store, w.files, w.filesPurged) && WorkersFit(c, w.jobs, w.workers, store, w.past)
    ensures Inv(c, w.(store := store))
  {
    hide JobsFit, HomesFit, LedgerFits, SuccessesFit, BundlesFit, OffersFit, OutboxFits, FilesFit, AcksFit, SweepsFit, BytesFit, WorkersFit;
  }

  lemma SweepEraseKeeps(c: Config, w: World, s: Guid, a: Guid)
    requires Inv(c, w)
    ensures Inv(c, ApplySweepErase(c, w, s, a))
  {
    if s in w.sweeps && w.sweeps[s].phase.Erasing? && a in w.sweeps[s].phase.left {
      assert SweepFits(w.clock, w.jobs, w.sweeps[s], w.past);
      var p := w.sweeps[s].phase;
      ErasedBytes(c, w, s, a);
      hide Inv, BytesFit, WorkersFit, Outdated;
      var store' := w.store - {ReportKey(c.tenant, w.sweeps[s].job, a)};
      StoreKeeps(c, w, store');
      MoveSweepKeeps(c, w.(store := store'), s, Erasing(p.ids, p.left - {a}));
    }
  }

  lemma DroppedFits(clock: Instant, p: Job, ids: set<Guid>, j: Guid, past: History)
    requires JobFits(p) && HomeOf(j, p, past) && Gone(p, clock) && Outdated(p)
    requires forall a | a in ids && a in p.artifacts :: a in Discarded(p, p.state.Purging?)
    ensures var q := WithoutArtifacts(p, ids);
      && JobFits(q) && HomeOf(j, q, past) && OffersBundle(clock, q) && SweepSafe(clock, p, clock, q)
      && ReadyKept(p, q, past.artifacts)
      && (forall a, i :: ReadyPdf(q, a, i) ==> ReadyPdf(p, a, i)) && (forall a, r :: ReadyZip(q, a, r) ==> ReadyZip(p, a, r))
      && (!p.state.Purging? ==> forall a, i :: ReadyPdf(p, a, i) ==> ReadyPdf(q, a, i))
  {
    var q := WithoutArtifacts(p, ids);
    assert forall a, i :: ReadyPdf(q, a, i) ==> ReadyPdf(p, a, i);
    assert !p.state.Purging? ==> forall a, i :: ReadyPdf(p, a, i) ==> ReadyPdf(q, a, i);
  }

  lemma DroppedTables(c: Config, w: World, s: Guid)
    requires Inv(c, w) && s in w.sweeps && w.sweeps[s].phase.Erasing? && w.sweeps[s].job in w.jobs
    ensures var j := w.sweeps[s].job;
      var q := WithoutArtifacts(w.jobs[j], w.sweeps[s].phase.ids);
      Inv(c, w.(jobs := w.jobs[j := q]))
  {
    var j := w.sweeps[s].job;
    var p, q := w.jobs[j], WithoutArtifacts(w.jobs[j], w.sweeps[s].phase.ids);
    assert SweepFits(w.clock, w.jobs, w.sweeps[s], w.past);
    AtJob(c, w, j);
    Tables(c, w);
    DroppedFits(w.clock, p, w.sweeps[s].phase.ids, j, w.past);
    assert BundleOf(j, p, w.past.bundles) && BytesOf(c, j, p, w.store, w.files, w.filesPurged);
    assert forall a :: !ReadyZip(p, a, p.revision);
    assert BytesOf(c, j, q, w.store, w.files, w.filesPurged);
    assert FlagsOf(q, w.files, w.filesPurged);
    assert BundlesFit(w.jobs[j := q], w.past);
    hide JobsFit, HomesFit, LedgerFits, BundlesFit, OffersFit, OutboxFits, FilesFit, AcksFit, SweepsFit, BytesFit, BytesOf,
      JobFits, HomeOf, ReadyKept, OffersBundle, SweepSafe, FlagsOf, Inv;
    SameUnits(w.jobs, w.ledger, w.past, j, q);
    SuccessesKeep(w.jobs, w.past, j, q, w.past);
    DroppedWorkers(c, w, j, q);
    JobCommit(c, w, w.(jobs := w.jobs[j := q]), j, q);
  }

  lemma DroppedWorkers(c: Config, w: World, j: Guid, q: Job)
    requires Inv(c, w) && j in w.jobs && !q.state.Running? && q.owner == w.jobs[j].owner
    requires forall a | a in q.artifacts :: a in w.jobs[j].artifacts && q.artifacts[a] == w.jobs[j].artifacts[a]
    ensures WorkersFit(c, w.jobs[j := q], w.workers, w.store, w.past)
  {
    hide JobsFit, HomesFit, LedgerFits, SuccessesFit, BundlesFit, OffersFit, SweepsFit, BytesFit, OutboxFits, FilesFit, AcksFit;
    forall k | k in w.workers ensures WorkerFits(c, w.jobs[j := q], k, w.workers[k], w.store, w.past) {
      BystanderKeeps(c, w.jobs, j, q, k, w.workers[k], w.store, w.past, w.past);
    }
  }

  lemma DropRowsShape(w: World, s: Guid)
    requires s in w.sweeps && w.sweeps[s].phase.Erasing? && w.sweeps[s].phase.left == {}
    ensures var j := w.sweeps[s].job;
      ApplySweepDropRows(w, s)
      == if j in w.jobs then MoveSweep(w.(jobs := w.jobs[j := WithoutArtifacts(w.jobs[j], w.sweeps[s].phase.ids)]), s, Cleared)
         else MoveSweep(w, s, Cleared)
  {
    hide WithoutArtifacts;
  }

  lemma SweepDropRowsKeeps(c: Config, w: World, s: Guid)
    requires Inv(c, w)
    ensures Inv(c, ApplySweepDropRows(w, s))
  {
    if s in w.sweeps && w.sweeps[s].phase.Erasing? && w.sweeps[s].phase.left == {} {
      var j := w.sweeps[s].job;
      DropRowsShape(w, s);
      if j in w.jobs {
        DroppedTables(c, w, s);
        var w1 := w.(jobs := w.jobs[j := WithoutArtifacts(w.jobs[j], w.sweeps[s].phase.ids)]);
        assert SweepFits(w1.clock, w1.jobs, w1.sweeps[s], w1.past);
        hide Inv, ApplySweepDropRows, WithoutArtifacts;
        MoveSweepKeeps(c, w1, s, Cleared);
      } else {
        hide Inv, ApplySweepDropRows;
        MoveSweepKeeps(c, w, s, Cleared);
      }
    }
  }

  lemma SweepJudgeKeeps(c: Config, w: World, s: Guid)
    requires Inv(c, w)
    ensures Inv(c, ApplySweepJudge(w, s))
  {
    if s in w.sweeps && w.sweeps[s].phase.Cleared? {
      var j := w.sweeps[s].job;
      assert SweepFits(w.clock, w.jobs, w.sweeps[s], w.past);
      if !w.sweeps[s].metadataDue || (j in w.jobs && KeepsPdf(w.jobs[j])) {
        SweepTableKeeps(c, w, w.sweeps - {s});
      } else {
        hide Inv;
        MoveSweepKeeps(c, w, s, Doomed);
      }
    }
  }

  /** A job can go once nothing can make it run again: its remaining entries are consumed. */
  lemma DropLedger(jobs: map<Guid, Job>, ledger: map<Guid, Entry>, past: History, j: Guid)
    requires HomesFit(jobs, past) && LedgerFits(jobs, ledger, past.itemHome)
    requires j in jobs ==> !Active(jobs[j].state)
    ensures LedgerFits(jobs - {j}, ledger, past.itemHome)
  {
    forall e | e in ledger ensures EntryFits(e, ledger[e], jobs - {j}, past.itemHome) {
      assert EntryFits(e, ledger[e], jobs, past.itemHome);
      if ledger[e].job == j && j in jobs { assert LedgerOf(ledger, j, jobs[j]); }
    }
    forall k | k in jobs - {j} ensures LedgerOf(ledger, k, (jobs - {j})[k]) {
      assert LedgerOf(ledger, k, jobs[k]);
    }
  }

  lemma DropTables(c: Config, w: World, j: Guid)
    requires Inv(c, w)
    ensures var jobs' := w.jobs - {j};
      && JobsFit(jobs') && HomesFit(jobs', w.past) && SuccessesFit(jobs', w.past) && BundlesFit(jobs', w.past)
      && OffersFit(w.clock, jobs') && BytesFit(c, jobs', w.store, w.files, w.filesPurged)
      && AcksFit(jobs', w.acks, w.files, w.filesPurged)
  {
    hide WorkersFit, SweepsFit, OutboxFits, FilesFit, LedgerFits, JobFits, HomeOf, BundleOf, OffersBundle, BytesOf, FlagsOf;
  }

  lemma DropBystanders(c: Config, w: World, j: Guid)
    requires Inv(c, w)
    ensures var jobs' := w.jobs - {j};
      && WorkersFit(c, jobs', w.workers, w.store, w.past) && SweepsFit(w.clock, jobs', w.sweeps, w.past)
      && OutboxFits(c, jobs', w.past.artifacts, w.outbox) && FilesFit(c, jobs', w.past.artifacts, w.files)
  {
    hide JobsFit, HomesFit, LedgerFits, SuccessesFit, BundlesFit, OffersFit, BytesFit, AcksFit, PhaseFits;
    var jobs' := w.jobs - {j};
    forall k | k in w.workers ensures WorkerFits(c, jobs', k, w.workers[k], w.store, w.past) {
      assert WorkerFits(c, w.jobs, k, w.workers[k], w.store, w.past);
    }
    forall s | s in w.sweeps ensures SweepFits(w.clock, jobs', w.sweeps[s], w.past) {
      assert SweepFits(w.clock, w.jobs, w.sweeps[s], w.past);
    }
    forall m | m in w.outbox ensures MessageFits(c, jobs', w.past.artifacts, m) {
      assert MessageFits(c, w.jobs, w.past.artifacts, m);
    }
    forall id | id in w.files ensures RowFits(c, jobs', w.past.artifacts, id, w.files[id]) {
      assert RowFits(c, w.jobs, w.past.artifacts, id, w.files[id]);
    }
  }

  lemma SweepDropJobKeeps(c: Config, w: World, s: Guid)
    requires Inv(c, w)
    ensures Inv(c, ApplySweepDropJob(w, s))
  {
    if s in w.sweeps && w.sweeps[s].phase.Doomed? {
      assert SweepFits(w.clock, w.jobs, w.sweeps[s], w.past);
      Tables(c, w);
      hide JobsFit, HomesFit, LedgerFits, SuccessesFit, BundlesFit, OffersFit, WorkersFit, BytesFit, OutboxFits, FilesFit, AcksFit,
        SweepFits;
      var j := w.sweeps[s].job;
      DropLedger(w.jobs, w.ledger, w.past, j);
      DropTables(c, w, j);
      DropBystanders(c, w, j);
    }
  }
}
