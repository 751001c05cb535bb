/**
 * How jobs, quota, files and messages can change in one step, whoever takes it. Nothing
 * here needs the invariant: the guards of the transactions are enough.
 */
module ReportSteps {
  import opened Basics
  import opened FileRows
  import opened ReportTypes
  import opened ReportRules
  import opened ReportWorld
  import opened ReportInvariant

  // ---------- the life of one job ----------

  /** Same artifacts, and the same ones ready: nothing was added and nothing completed. */
  ghost predicate NothingNew(p: Job, q: Job) {
    forall a | a in q.artifacts ::
      && a in p.artifacts && q.artifacts[a].ready == p.artifacts[a].ready && q.artifacts[a].item == p.artifacts[a].item
  }

  /** A run's metadata never expires before its artifacts. */
  ghost predicate RetentionOrdered(job: Job) {
    if job.expiresAt.None? then job.metadataExpiresAt.None?
    else job.metadataExpiresAt.Some? && job.expiresAt.value <= job.metadataExpiresAt.value
  }

  /** Nobody takes a job over while its lease is live. */
  ghost predicate NoTakeover(p: Job, clock': Instant, q: Job) {
    p.owner.Some? && q.owner.Some? && q.owner != p.owner ==> !After(p.leaseUntil, clock')
  }

  /** A job that nothing can make run again stays so. */
  ghost predicate StaysGone(clock: Instant, p: Job, clock': Instant, q: Job) {
    Gone(p, clock) ==> Gone(q, clock') && NothingNew(p, q)
  }

  /** `seen` holds every worker that ever claimed anything. */
  ghost predicate Changes(p: Job, q: Job, seen: set<Guid>) {
    && p.revision <= q.revision
    && (p.state.Purging? ==> q.state.Purging?)
    && (p.expiresAt.Some? ==> q.expiresAt == p.expiresAt || q.state.Purging?)
    && (RetentionOrdered(p) ==> RetentionOrdered(q))
    && (q.state.Running? && q.owner.Some? && q.owner.value in seen ==>
          p.state.Running? && p.owner == q.owner && p.revision == q.revision)
  }

  ghost predicate Evolves(clock: Instant, p: Job, clock': Instant, q: Job, seen: set<Guid>) {
    Changes(p, q, seen) && StaysGone(clock, p, clock', q)
  }

  lemma SameEvolves(clock: Instant, p: Job, clock': Instant, seen: set<Guid>)
    requires clock <= clock'
    ensures Evolves(clock, p, clock', p, seen)
  {
  }

  lemma ChangesOn(p: Job, q: Job, r: Job, seen: set<Guid>, seen': set<Guid>)
    requires Changes(p, q, seen) && Changes(q, r, seen') && seen <= seen'
    ensures Changes(p, r, seen)
  {
  }

  // ---------- the jobs in one step ----------

  /** Open retries end, and new ones have just read an unexpired failed job. */
  ghost predicate RetriesMove(w: World, w': World) {
    forall r | r in w'.retries ::
      if r in w.retries then w'.retries[r] == w.retries[r]
      else
        var j := w'.retries[r].job;
        j in w.jobs && Retryable(w.jobs[j], w'.clock) && w'.retries[r].revision == w.jobs[j].revision
  }

  ghost predicate Aged(w: World, w': World) {
    w.clock <= w'.clock && w.past.workers <= w'.past.workers && w.past.jobs <= w'.past.jobs
  }

  ghost predicate Later(w: World, w': World) { Aged(w, w') && RetriesMove(w, w') }

  /** An open retry may still reopen the job: nobody has changed its revision since it was read. */
  ghost predicate Pending(w: World, j: Guid) {
    j in w.jobs && exists r :: r in w.retries && w.retries[r].job == j && w.retries[r].revision >= w.jobs[j].revision
  }

  /** Ids are fresh: every row was once inserted under an id that was new then. */
  ghost predicate Known(w: World) {
    forall j | j in w.jobs :: j in w.past.jobs
  }

  ghost predicate JobsEvolve(w: World, w': World) {
    && Later(w, w') && Known(w')
    && (forall j | j in w.jobs && j in w'.jobs :: Changes(w.jobs[j], w'.jobs[j], w.past.workers))
    && (forall j | j in w.jobs && j in w'.jobs :: Pending(w, j) || StaysGone(w.clock, w.jobs[j], w'.clock, w'.jobs[j]))
    && (forall j | j in w.jobs && j in w'.jobs :: NoTakeover(w.jobs[j], w'.clock, w'.jobs[j]))
    && (forall j | j in w'.jobs && j !in w.jobs ::
          j !in w.past.jobs && w'.jobs[j].owner.None? && RetentionOrdered(w'.jobs[j]))
  }

  function ActiveSet(jobs: map<Guid, Job>): set<Guid> {
    set j | j in jobs && Active(jobs[j].state)
  }

  /** No job became active. */
  ghost predicate Calm(w: World, w': World) {
    ActiveSet(w'.jobs) <= ActiveSet(w.jobs)
  }

  lemma SameRetries(w: World, w': World)
    requires w'.retries == w.retries
    ensures RetriesMove(w, w')
  {
  }

  lemma OneJobEvolves(w: World, w': World, j: Guid, q: Job)
    requires j in w.jobs && w'.jobs == w.jobs[j := q] && Aged(w, w') && Known(w)
    requires w'.retries == w.retries || RetriesMove(w, w')
    requires Changes(w.jobs[j], q, w.past.workers) && NoTakeover(w.jobs[j], w'.clock, q)
    requires Pending(w, j) || StaysGone(w.clock, w.jobs[j], w'.clock, q)
    ensures JobsEvolve(w, w')
    ensures (Active(q.state) ==> Active(w.jobs[j].state)) ==> Calm(w, w')
  {
    hide Changes, StaysGone, Pending, RetriesMove;
    if w'.retries == w.retries { SameRetries(w, w'); }
    forall k | k in w.jobs && k != j ensures Evolves(w.clock, w.jobs[k], w'.clock, w'.jobs[k], w.past.workers) {
      SameEvolves(w.clock, w.jobs[k], w'.clock, w.past.workers);
    }
  }

  lemma FewerJobsEvolve(w: World, w': World)
    requires Aged(w, w') && Known(w)
    requires w'.retries == w.retries || RetriesMove(w, w')
    requires forall k | k in w'.jobs :: k in w.jobs && w'.jobs[k] == w.jobs[k]
    ensures JobsEvolve(w, w') && Calm(w, w')
  {
    hide Changes, StaysGone, Pending, RetriesMove;
    if w'.retries == w.retries { SameRetries(w, w'); }
    forall k | k in w'.jobs ensures Evolves(w.clock, w.jobs[k], w'.clock, w'.jobs[k], w.past.workers) {
      SameEvolves(w.clock, w.jobs[k], w'.clock, w.past.workers);
    }
    forall k | k in ActiveSet(w'.jobs) ensures k in ActiveSet(w.jobs) {
      assert k in w'.jobs;
    }
  }

  // ---------- quota, files and bytes in one step ----------

  /** Entries may go and may be consumed, but their month never changes and none is added. */
  ghost predicate NoNewEntries(ledger: map<Guid, Entry>, ledger': map<Guid, Entry>) {
    forall e | e in ledger' :: e in ledger && ledger'[e].month == ledger[e].month
  }

  /** Storage's rows stay as they are and no quota is taken. */
  ghost predicate Modest(w: World, w': World) {
    w'.files == w.files && w'.filesPurged == w.filesPurged && NoNewEntries(w.ledger, w'.ledger)
  }

  ghost predicate NothingLost(w: World, w': World) {
    forall key | key in w.store :: key in w'.store
  }

  // ---------- messages in one step ----------

  /** The message tells Storage the truth about a ready PDF: its job and size, who asked for it, and which sites it covers. */
  ghost predicate Describes(jobs: map<Guid, Job>, m: Publish) {
    exists j ::
      && j in jobs && m.originId == j && m.createdBy == jobs[j].requestedBy
      && m.id in jobs[j].artifacts && jobs[j].artifacts[m.id].ready && jobs[j].artifacts[m.id].item.Some?
      && m.bytes == jobs[j].artifacts[m.id].bytes
      && var i := jobs[j].artifacts[m.id].item.value;
         i in jobs[j].items && m.sites == jobs[j].items[i].sites
         && m.createdAt == (if jobs[j].items[i].generatedAt.Some? then jobs[j].items[i].generatedAt.value
                            else jobs[j].artifacts[m.id].createdAt)
  }

  /** No pass has listed anything new for deletion. */
  ghost predicate SameListings(sweeps: map<Guid, Sweep>, sweeps': map<Guid, Sweep>) {
    forall s | s in sweeps' && sweeps'[s].phase.Erasing? ::
      && s in sweeps && sweeps[s].phase.Erasing? && sweeps'[s].purging == sweeps[s].purging
      && sweeps'[s].job == sweeps[s].job && sweeps'[s].phase.ids == sweeps[s].phase.ids
  }

  /** New messages describe ready PDFs; listings are made by listing only; new files come from messages. */
  ghost predicate Honest(w: World, w': World) {
    && (forall m | m in w'.outbox && m !in w.outbox :: Describes(w'.jobs, m))
    && SameListings(w.sweeps, w'.sweeps)
    && (forall f | f in w'.files && f !in w.files :: exists m :: m in w.outbox && m.id == f)
  }

  /** All of it: the usual case. */
  ghost predicate Decent(w: World, w': World) {
    JobsEvolve(w, w') && Calm(w, w') && Modest(w, w') && NothingLost(w, w') && Honest(w, w')
  }

  lemma NothingIsDecent(w: World)
    requires Known(w)
    ensures Decent(w, w)
  {
    hide RetriesMove, JobsEvolve, Calm;
    FewerJobsEvolve(w, w);
  }

  lemma SilentIsHonest(w: World, w': World)
    requires w'.outbox == w.outbox && w'.sweeps == w.sweeps && w'.files == w.files
    ensures Honest(w, w')
  {
  }

  lemma DroppedListings(sweeps: map<Guid, Sweep>, s: Guid)
    ensures SameListings(sweeps, sweeps - {s})
  {
  }

  lemma MovedListings(sweeps: map<Guid, Sweep>, s: Guid, sweep: Sweep)
    requires sweep.phase.Erasing? ==> s in sweeps && sweeps[s].phase.Erasing? && sweep.purging == sweeps[s].purging
                                      && sweep.job == sweeps[s].job && sweep.phase.ids == sweeps[s].phase.ids
    ensures SameListings(sweeps, sweeps[s := sweep])
  {
  }

  lemma NewlyReadyDescribed(tenant: Tenant, jobs: map<Guid, Job>, j: Guid, q: Job)
    requires j in jobs
    ensures forall m | m in NewlyReady(tenant, j, jobs[j], q) :: Describes(jobs[j := q], m)
  {
    forall m | m in NewlyReady(tenant, j, jobs[j], q) ensures Describes(jobs[j := q], m) {
      assert jobs[j := q][j] == q;
    }
  }

  lemma UnacknowledgedDescribed(tenant: Tenant, jobs: map<Guid, Job>, j: Guid)
    requires j in jobs
    ensures forall m | m in Unacknowledged(tenant, j, jobs[j]) :: Describes(jobs, m)
  {
  }

  // ---------- what a worker's step writes ----------

  /** The new version of a job that a worker's step commits, and when. */
  datatype Commitment = Commitment(at: Instant, job: Guid, row: Job)

  /** What the step commits, if its guards let it. */
  ghost function Committed(c: Config, w: World, a: Action): Option<Commitment> {
    if !ByWorker(a) then None
    else if a.Claim? then
      if a.worker in w.past.workers || a.job !in w.jobs || !Claimable(w.jobs[a.job], a.at) then None
      else Some(Commitment(a.at, a.job, Claimed(w.jobs[a.job], a.worker, c.limits, a.at)))
    else if a.worker !in w.workers || w.workers[a.worker].job !in w.jobs then None
    else
      var j, p := w.workers[a.worker].job, w.workers[a.worker].phase;
      var job := w.jobs[j];
      match a
      case StartItem(at, id, i, art) =>
        if p.Planning? && art !in w.past.artifacts && i in p.items && p.items[i].state.Queued?
           && Owns(job, p.revision, id) && i in job.items
        then Some(Commitment(at, j, Started(job, i, art, c.limits, at))) else None
      case Settle(at, id) =>
        if p.Settling? && Owns(job, p.revision, id) && p.item in job.items && p.artifact in job.artifacts
        then Some(Commitment(at, j, SettledJob(job, p.item, p.artifact, p.outcome, at))) else None
      case StartBundle(at, id, art) =>
        if p.Planning? && art !in w.past.artifacts && NothingQueued(p.items) && WantsBundle(p) && Owns(job, p.revision, id)
        then Some(Commitment(at, j, WithBundle(job, art, c.limits, at))) else None
      case ReadyBundle(at, id, _) =>
        if p.Zipped? && Owns(job, p.revision, id) && p.artifact in job.artifacts
        then Some(Commitment(at, j, BundleReady(job, p.artifact, p.bytes))) else None
      case Finish(at, id) =>
        if p.Concluding? && Owns(job, p.revision, id)
        then Some(Commitment(at, j, Finished(job.(error := p.error), p.verdict, c.limits, at))) else None
      case Release(at, id) =>
        if p.Leaving? && job.owner == Some(id) then Some(Commitment(at, j, LeaseReleased(job))) else None
      case _ => None
  }

  /** A worker's step writes its commitment with its messages, or nothing but bytes and its own state. */
  ghost predicate Wrote(c: Config, w: World, k: Option<Commitment>, w': World) {
    && w'.sweeps == w.sweeps && w'.retries == w.retries && w'.files == w.files && w'.filesPurged == w.filesPurged
    && NothingLost(w, w')
    && if k.None? then
         w'.clock == w.clock && w'.jobs == w.jobs && w'.outbox == w.outbox && w'.ledger == w.ledger && w'.past == w.past
       else
         && k.value.job in w.jobs && w'.jobs == w.jobs[k.value.job := k.value.row] && w'.clock == k.value.at
         && w'.outbox == w.outbox + NewlyReady(c.tenant, k.value.job, w.jobs[k.value.job], k.value.row)
         && NoNewEntries(w.ledger, w'.ledger) && w'.past.jobs == w.past.jobs && w.past.workers <= w'.past.workers
  }

  lemma CommitShape(c: Config, w: World, at: Instant, j: Guid, q: Job)
    requires j in w.jobs
    ensures var w' := Commit(c, w, at, j, q);
      && w'.jobs == w.jobs[j := q] && w'.clock == at && w'.past == w.past && w'.ledger == w.ledger
      && w'.outbox == w.outbox + NewlyReady(c.tenant, j, w.jobs[j], q) && w'.sweeps == w.sweeps
      && w'.workers == w.workers && w'.store == w.store && w'.files == w.files && w'.filesPurged == w.filesPurged
      && w'.retries == w.retries
  {
    hide NewlyReady;
  }

  /** A commit and a move touch the job, the outbox, the worker and nothing else. */
  lemma CommitMoves(c: Config, w: World, at: Instant, j: Guid, q: Job, id: Guid, phase: Phase)
    requires j in w.jobs && id in w.workers
    ensures var w' := Move(Commit(c, w, at, j, q), id, phase);
      && w'.jobs == w.jobs[j := q] && w'.clock == at && w'.past == w.past && w'.ledger == w.ledger
      && w'.outbox == w.outbox + NewlyReady(c.tenant, j, w.jobs[j], q) && w'.sweeps == w.sweeps
      && w'.store == w.store && w'.files == w.files && w'.filesPurged == w.filesPurged && w'.retries == w.retries
  {
    hide Commit;
    CommitShape(c, w, at, j, q);
  }

  lemma ClaimWrites(c: Config, w: World, at: Instant, j: Guid, id: Guid)
    ensures Wrote(c, w, Committed(c, w, Claim(at, j, id)), ApplyClaim(c, w, at, j, id))
  {
    hide Commit, Claimed;
    var k := Committed(c, w, Claim(at, j, id));
    if k.Some? { CommitShape(c, w, at, j, k.value.row); }
  }

  lemma StartItemWrites(c: Config, w: World, at: Instant, id: Guid, i: Guid, art: Guid)
    ensures var a := StartItem(at, id, i, art); Wrote(c, w, Committed(c, w, a), ApplyStartItem(c, w, at, id, i, art))
  {
    hide Commit, Started;
    var k := Committed(c, w, StartItem(at, id, i, art));
    if k.Some? {
      var j, p := w.workers[id].job, w.workers[id].phase;
      CommitMoves(c, w, at, j, k.value.row, id, Rendering(p.revision, i, art));
      hide Move;
    }
  }

  lemma SettleWrites(c: Config, w: World, at: Instant, id: Guid)
    ensures var a := Settle(at, id); Wrote(c, w, Committed(c, w, a), ApplySettle(c, w, at, id))
  {
    hide Commit, SettledJob;
    var k := Committed(c, w, Settle(at, id));
    if k.Some? {
      var j, p := w.workers[id].job, w.workers[id].phase;
      CommitMoves(c, w, at, j, k.value.row, id, Idle);
      hide Move;
    }
  }

  lemma StartBundleWrites(c: Config, w: World, at: Instant, id: Guid, art: Guid)
    ensures var a := StartBundle(at, id, art); Wrote(c, w, Committed(c, w, a), ApplyStartBundle(c, w, at, id, art))
  {
    hide Commit, WithBundle, NothingQueued, WantsBundle;
    var k := Committed(c, w, StartBundle(at, id, art));
    if k.Some? {
      var j, p := w.workers[id].job, w.workers[id].phase;
      CommitMoves(c, w, at, j, k.value.row, id, Zipping(p.revision, art, p.items, p.artifacts));
      hide Move;
    }
  }

  lemma ReadyBundleWrites(c: Config, w: World, at: Instant, id: Guid, confirmed: bool)
    ensures var a := ReadyBundle(at, id, confirmed); Wrote(c, w, Committed(c, w, a), ApplyReadyBundle(c, w, at, id, confirmed))
  {
    hide Commit, BundleReady, Verdict;
    var k := Committed(c, w, ReadyBundle(at, id, confirmed));
    if k.Some? {
      var j, p := w.workers[id].job, w.workers[id].phase;
      CommitMoves(c, w, at, j, k.value.row, id, if confirmed then Concluding(p.revision, Verdict(p.items), None)
                                                     else Concluding(p.revision, JobState.Failed, Some("bundle_failed")));
      hide Move;
    }
  }

  lemma FinishWrites(c: Config, w: World, at: Instant, id: Guid)
    ensures var a := Finish(at, id); Wrote(c, w, Committed(c, w, a), ApplyFinish(c, w, at, id))
  {
    hide Commit, Finished;
    var k := Committed(c, w, Finish(at, id));
    if k.Some? {
      var j, p := w.workers[id].job, w.workers[id].phase;
      CommitMoves(c, w, at, j, k.value.row, id, Leaving);
      hide Move;
    }
  }

  lemma ReleaseWrites(c: Config, w: World, at: Instant, id: Guid)
    ensures Wrote(c, w, Committed(c, w, Release(at, id)), ApplyRelease(c, w, at, id))
  {
    hide Commit, LeaseReleased;
    var k := Committed(c, w, Release(at, id));
    if k.Some? { CommitShape(c, w.(workers := w.workers - {id}), at, k.value.job, k.value.row); }
  }

  ghost predicate OnlyWorkers(w: World, w': World) {
    && w'.clock == w.clock && w'.jobs == w.jobs && w'.ledger == w.ledger && w'.store == w.store && w'.outbox == w.outbox
    && w'.acks == w.acks && w'.files == w.files && w'.filesPurged == w.filesPurged && w'.sweeps == w.sweeps
    && w'.retries == w.retries && w'.past == w.past
  }

  lemma MovesOnly(w: World, id: Guid)
    ensures OnlyWorkers(w, w)
    ensures id in w.workers ==> forall phase :: OnlyWorkers(w, Move(w, id, phase))
  {
  }

  lemma ReadsMove(w: World, id: Guid)
    ensures OnlyWorkers(w, ApplyReadRow(w, id)) && OnlyWorkers(w, ApplyReadItems(w, id)) && OnlyWorkers(w, ApplyReadArtifacts(w, id))
  {
    MovesOnly(w, id);
    hide Move, OnlyWorkers;
  }

  lemma EndsMove(w: World, id: Guid)
    ensures OnlyWorkers(w, ApplyConclude(w, id)) && OnlyWorkers(w, ApplyFailBundle(w, id))
  {
    MovesOnly(w, id);
    hide Move, OnlyWorkers, WantsBundle, NothingQueued, Verdict;
  }

  lemma ReadingCommitsNothing(c: Config, w: World, a: Action)
    requires a.ReadRow? || a.ReadItems? || a.ReadArtifacts? || a.Conclude? || a.FailBundle? || a.Abandon? || a.Crash?
    ensures Committed(c, w, a).None?
  {
    hide Next, WantsBundle, NothingQueued, Verdict, Owns, Claimable;
  }

  /** These steps change nothing but where their worker stands. */
  lemma ReadingWrites(c: Config, w: World, a: Action, w': World)
    requires a.ReadRow? || a.ReadItems? || a.ReadArtifacts? || a.Conclude? || a.FailBundle? || a.Abandon? || a.Crash?
    requires OnlyWorkers(w, w')
    ensures Wrote(c, w, Committed(c, w, a), w')
  {
    ReadingCommitsNothing(c, w, a);
    hide Committed;
  }

  lemma CrashMoves(w: World, id: Guid)
    ensures OnlyWorkers(w, w.(workers := w.workers - {id}))
  {
  }

  lemma RenderWrites(c: Config, w: World, id: Guid, outcome: Outcome, wrote: bool)
    ensures Wrote(c, w, Committed(c, w, Render(id, outcome, wrote)), ApplyRender(c, w, id, outcome, wrote))
  {
    hide Owns, NothingQueued, WantsBundle, Claimable, NewlyReady, ReportKey;
  }

  lemma WriteBundleWrites(c: Config, w: World, id: Guid, bytes: int)
    ensures Wrote(c, w, Committed(c, w, WriteBundle(id, bytes)), ApplyWriteBundle(c, w, id, bytes))
  {
    hide Bundleable, Archive;
  }

  lemma ReaderWrites(c: Config, w: World, a: Action)
    requires a.ReadRow? || a.ReadItems? || a.ReadArtifacts? || a.Conclude? || a.FailBundle? || a.Abandon? || a.Crash?
    ensures Wrote(c, w, Committed(c, w, a), Next(c, w, a))
  {
    MovesOnly(w, a.worker);
    hide Wrote, Committed, OnlyWorkers, Timely, Move, ApplyReadRow, ApplyReadItems, ApplyReadArtifacts, ApplyConclude, ApplyFailBundle;
    ReadsMove(w, a.worker);
    EndsMove(w, a.worker);
    CrashMoves(w, a.worker);
    ReadingWrites(c, w, a, Next(c, w, a));
  }

  /** Every step of a worker writes its commitment or nothing. */
  lemma WorkerWrites(c: Config, w: World, a: Action)
    requires ByWorker(a) && Timely(w, a)
    ensures Wrote(c, w, Committed(c, w, a), Next(c, w, a))
  {
    hide Wrote, Committed, ApplyClaim, ApplyStartItem, ApplyRender, ApplySettle, ApplyStartBundle, ApplyWriteBundle, ApplyReadyBundle,
      ApplyFinish, ApplyRelease;
    match a {
      case Claim(at, j, id) => ClaimWrites(c, w, at, j, id);
      case StartItem(at, id, i, art) => StartItemWrites(c, w, at, id, i, art);
      case Settle(at, id) => SettleWrites(c, w, at, id);
      case StartBundle(at, id, art) => StartBundleWrites(c, w, at, id, art);
      case ReadyBundle(at, id, confirmed) => ReadyBundleWrites(c, w, at, id, confirmed);
      case Finish(at, id) => FinishWrites(c, w, at, id);
      case Release(at, id) => ReleaseWrites(c, w, at, id);
      case Render(id, outcome, wrote) => RenderWrites(c, w, id, outcome, wrote);
      case WriteBundle(id, bytes) => WriteBundleWrites(c, w, id, bytes);
      case _ => ReaderWrites(c, w, a);
    }
  }

  /** A fenced commitment leaves revision, owner and retention alone; a claim or a release keeps the rest. */
  lemma CommittedEvolves(c: Config, w: World, a: Action)
    requires Committed(c, w, a).Some? && w.clock <= Committed(c, w, a).value.at
    ensures var k := Committed(c, w, a).value;
      && k.job in w.jobs && Evolves(w.clock, w.jobs[k.job], k.at, k.row, w.past.workers) && NoTakeover(w.jobs[k.job], k.at, k.row)
      && (Active(k.row.state) ==> Active(w.jobs[k.job].state))
  {
    hide NothingQueued, WantsBundle;
  }

  lemma WroteIsDecent(c: Config, w: World, k: Option<Commitment>, w': World)
    requires Known(w) && Wrote(c, w, k, w')
    requires k.Some? ==>
               && w.clock <= k.value.at && k.value.job in w.jobs
               && Evolves(w.clock, w.jobs[k.value.job], k.value.at, k.value.row, w.past.workers)
               && NoTakeover(w.jobs[k.value.job], k.value.at, k.value.row)
               && (Active(k.value.row.state) ==> Active(w.jobs[k.value.job].state))
    ensures Decent(w, w')
  {
    hide Changes, StaysGone, NoTakeover, JobsEvolve, Calm, Describes, NewlyReady, NothingLost;
    if k.Some? {
      OneJobEvolves(w, w', k.value.job, k.value.row);
      NewlyReadyDescribed(c.tenant, w.jobs, k.value.job, k.value.row);
    } else {
      FewerJobsEvolve(w, w');
    }
  }

  lemma WorkerStep(c: Config, w: World, a: Action)
    requires ByWorker(a) && Timely(w, a) && Known(w)
    ensures Decent(w, Next(c, w, a))
  {
    hide Next, Wrote, Changes, StaysGone, NoTakeover, Decent;
    WorkerWrites(c, w, a);
    if Committed(c, w, a).Some? {
      TimelyCommitment(c, w, a);
      CommittedEvolves(c, w, a);
    }
    hide Timely, Committed;
    WroteIsDecent(c, w, Committed(c, w, a), Next(c, w, a));
  }

  lemma TimelyCommitment(c: Config, w: World, a: Action)
    requires Timely(w, a) && Committed(c, w, a).Some?
    ensures w.clock <= Committed(c, w, a).value.at
  {
    hide NothingQueued, WantsBundle, Owns, Claimable, Claimed, Started, SettledJob, WithBundle, BundleReady, Finished, LeaseReleased;
  }

  // ---------- users, the purge and the acknowledgement ----------

  lemma NewJobEvolves(w: World, w': World, j: Guid, q: Job)
    requires Known(w) && j !in w.past.jobs && w'.jobs == w.jobs[j := q] && w'.past.jobs == w.past.jobs + {j}
    requires w.clock <= w'.clock && w'.past.workers == w.past.workers && w'.retries == w.retries
    requires q.owner.None? && RetentionOrdered(q)
    ensures JobsEvolve(w, w')
  {
    SameRetries(w, w');
    hide Changes, StaysGone, Pending, RetriesMove;
    forall k | k in w.jobs ensures Evolves(w.clock, w.jobs[k], w'.clock, w'.jobs[k], w.past.workers) {
      SameEvolves(w.clock, w.jobs[k], w'.clock, w.past.workers);
    }
  }

  lemma SubmitStep(c: Config, w: World, at: Instant, j: Guid, user: Guid, mode: Mode, sites: seq<Guid>, ids: seq<Guid>,
                   month: int, quota: int)
    requires w.clock <= at && Known(w)
    ensures JobsEvolve(w, ApplySubmit(c, w, at, j, user, mode, sites, ids, month, quota))
  {
    hide JobsEvolve, Known, NewItems, Groups, Reserved, UsedIn, ActiveJobs, FreshItems, SiteLimit;
    var w' := ApplySubmit(c, w, at, j, user, mode, sites, ids, month, quota);
    FewerJobsEvolve(w, w);
    if w' != w { NewJobEvolves(w, w', j, w'.jobs[j]); }
  }

  lemma SubmitAside(c: Config, w: World, at: Instant, j: Guid, user: Guid, mode: Mode, sites: seq<Guid>, ids: seq<Guid>,
                    month: int, quota: int)
    ensures var w' := ApplySubmit(c, w, at, j, user, mode, sites, ids, month, quota);
      && w'.files == w.files && w'.filesPurged == w.filesPurged && w'.store == w.store
      && w'.outbox == w.outbox && w'.sweeps == w.sweeps
  {
    hide NewItems, NewJob, Groups, Reserved, UsedIn, ActiveJobs, FreshItems, SiteLimit;
  }

  lemma RetryAside(c: Config, w: World, at: Instant, r: Guid, month: int, quota: int)
    ensures var w' := ApplyRetry(c, w, at, r, month, quota);
      && w'.files == w.files && w'.filesPurged == w.filesPurged && w'.store == w.store
      && w'.outbox == w.outbox && w'.sweeps == w.sweeps
  {
    DropRetryAside(w, r);
    hide DropRetry, RetriedJob, FailedItems, Reopenable, Reserved, UsedIn, ActiveJobs;
  }

  lemma DropRetryAside(w: World, r: Guid)
    ensures var w' := DropRetry(w, r);
      && w'.files == w.files && w'.filesPurged == w.filesPurged && w'.store == w.store
      && w'.outbox == w.outbox && w'.sweeps == w.sweeps
  {
  }

  lemma ReadRetryStep(w: World, at: Instant, r: Guid, j: Guid, user: Guid)
    requires w.clock <= at && Known(w)
    ensures Decent(w, ApplyReadRetry(w, at, r, j, user))
  {
    hide JobsEvolve, Calm, Honest, Due, Reopenable;
    var w' := ApplyReadRetry(w, at, r, j, user);
    assert RetriesMove(w, w');
    hide RetriesMove;
    FewerJobsEvolve(w, w');
    SilentIsHonest(w, w');
  }

  lemma DropRetryStep(w: World, r: Guid)
    requires Known(w)
    ensures Decent(w, DropRetry(w, r))
  {
    hide JobsEvolve, Calm, Honest, Retryable;
    assert RetriesMove(w, DropRetry(w, r));
    hide RetriesMove;
    FewerJobsEvolve(w, DropRetry(w, r));
    SilentIsHonest(w, DropRetry(w, r));
  }

  lemma RetriedChanges(p: Job, seen: set<Guid>, clock': Instant)
    requires Reopenable(p)
    ensures Changes(p, RetriedJob(p), seen) && NoTakeover(p, clock', RetriedJob(p))
  {
  }

  lemma RetryCommitsStep(w: World, at: Instant, r: Guid, ledger: map<Guid, Entry>)
    requires w.clock <= at && Known(w) && r in w.retries && w.retries[r].job in w.jobs
    requires w.jobs[w.retries[r].job].revision == w.retries[r].revision && Reopenable(w.jobs[w.retries[r].job])
    ensures var j := w.retries[r].job;
      JobsEvolve(w, DropRetry(w, r).(clock := at, jobs := w.jobs[j := RetriedJob(w.jobs[j])], ledger := ledger))
  {
    var j := w.retries[r].job;
    var w' := DropRetry(w, r).(clock := at, jobs := w.jobs[j := RetriedJob(w.jobs[j])], ledger := ledger);
    RetriedChanges(w.jobs[j], w.past.workers, at);
    assert Pending(w, j);
    hide JobsEvolve, Calm, RetriedJob, Reopenable, Changes, NoTakeover, StaysGone, Pending;
    assert RetriesMove(w, w');
    OneJobEvolves(w, w', j, w'.jobs[j]);
  }

  lemma RetryStep(c: Config, w: World, at: Instant, r: Guid, month: int, quota: int)
    requires w.clock <= at && Known(w)
    ensures JobsEvolve(w, ApplyRetry(c, w, at, r, month, quota))
  {
    hide Decent, DropRetry, UsedIn, ActiveJobs, Reserved, FailedItems, RetriedJob, Known, Reopenable;
    DropRetryStep(w, r);
    NothingIsDecent(w);
    assert JobsEvolve(w, w) && JobsEvolve(w, DropRetry(w, r)) by { DecentEvolves(w, w); DecentEvolves(w, DropRetry(w, r)); }
    hide JobsEvolve;
    if r in w.retries {
      var j := w.retries[r].job;
      if j in w.jobs && w.jobs[j].revision == w.retries[r].revision && Reopenable(w.jobs[j]) {
        RetryCommitsStep(w, at, r, Reserved(w.ledger, j, FailedItems(w.jobs[j]), month));
      }
    }
  }

  lemma DecentEvolves(w: World, w': World)
    requires Decent(w, w')
    ensures JobsEvolve(w, w')
  {
  }

  lemma CancelStep(c: Config, w: World, at: Instant, j: Guid, user: Guid)
    requires w.clock <= at && Known(w)
    ensures Decent(w, ApplyCancel(c, w, at, j, user))
  {
    var w' := ApplyCancel(c, w, at, j, user);
    hide RetriesMove, JobsEvolve, Calm, Honest;
    if j in w.jobs && w.jobs[j].requestedBy == user && Active(w.jobs[j].state) {
      var q := CanceledJob(w.jobs[j], c.limits, at);
      assert Evolves(w.clock, w.jobs[j], at, q, w.past.workers) && !Active(q.state);
      hide CanceledJob;
      OneJobEvolves(w, w', j, q);
    } else {
      FewerJobsEvolve(w, w');
    }
    SilentIsHonest(w, w');
  }

  lemma PurgeStep(w: World, at: Instant)
    requires w.clock <= at && Known(w)
    ensures Decent(w, ApplyPurgeReports(w, at))
  {
    var w' := ApplyPurgeReports(w, at);
    assert forall j | j in w.jobs :: Evolves(w.clock, w.jobs[j], at, Purged(w.jobs[j], at), w.past.workers)
                                     && NoTakeover(w.jobs[j], at, Purged(w.jobs[j], at)) && !Active(Purged(w.jobs[j], at).state);
    hide Changes, StaysGone, NoTakeover, Honest, Purged;
    assert ActiveSet(w'.jobs) == {};
    SilentIsHonest(w, w');
  }

  lemma AckStep(w: World, id: Guid)
    requires Known(w)
    ensures Decent(w, ApplyDeliverAck(w, id))
  {
    if id in w.acks {
      var w' := ApplyDeliverAck(w, id);
      forall j | j in w.jobs
        ensures Evolves(w.clock, w.jobs[j], w.clock, Acknowledged(w.jobs[j], id), w.past.workers)
             && NoTakeover(w.jobs[j], w.clock, Acknowledged(w.jobs[j], id))
             && Acknowledged(w.jobs[j], id).state == w.jobs[j].state
      {
        AcknowledgedEvolves(w.clock, w.jobs[j], id, w.past.workers);
      }
      hide Changes, StaysGone, NoTakeover, Honest, Acknowledged;
      SilentIsHonest(w, w');
    } else {
      NothingIsDecent(w);
    }
  }

  lemma AcknowledgedEvolves(clock: Instant, p: Job, id: Guid, seen: set<Guid>)
    ensures var q := Acknowledged(p, id);
      Evolves(clock, p, clock, q, seen) && NoTakeover(p, clock, q) && q.state == p.state
  {
  }

  // ---------- the recovery sweep ----------

  /** Nothing but clock, passes, messages and bytes differs. */
  ghost predicate SameTables(w: World, w': World) {
    && w'.jobs == w.jobs && w'.retries == w.retries && w'.past == w.past && w'.ledger == w.ledger
    && w'.files == w.files && w'.filesPurged == w.filesPurged
  }

  lemma QuietStep(w: World, w': World)
    requires Known(w) && w.clock <= w'.clock && SameTables(w, w') && SameListings(w.sweeps, w'.sweeps)
    requires forall m | m in w'.outbox && m !in w.outbox :: Describes(w.jobs, m)
    ensures JobsEvolve(w, w') && Calm(w, w') && Modest(w, w') && Honest(w, w')
  {
    hide RetriesMove, JobsEvolve, Calm, Describes, SameListings;
    FewerJobsEvolve(w, w');
  }

  lemma SelectShape(w: World, at: Instant, s: Guid, j: Guid)
    requires w.clock <= at
    ensures var w' := ApplySweepSelect(w, at, s, j);
      SameTables(w, w') && w.clock <= w'.clock && w'.outbox == w.outbox && w'.store == w.store && SameListings(w.sweeps, w'.sweeps)
  {
    hide Due, After;
  }

  lemma SelectStep(w: World, at: Instant, s: Guid, j: Guid)
    requires w.clock <= at && Known(w)
    ensures Decent(w, ApplySweepSelect(w, at, s, j))
  {
    SelectShape(w, at, s, j);
    hide ApplySweepSelect, SameListings, JobsEvolve, Calm, Modest, Honest, Describes;
    QuietStep(w, ApplySweepSelect(w, at, s, j));
  }

  lemma SameListingsNow(sweeps: map<Guid, Sweep>)
    ensures SameListings(sweeps, sweeps)
  {
  }

  lemma RepublishShape(c: Config, w: World, s: Guid)
    ensures var w' := ApplySweepRepublish(c, w, s);
      && SameTables(w, w') && w'.clock == w.clock && w'.sweeps == w.sweeps && w'.store == w.store
      && forall m | m in w'.outbox && m !in w.outbox ::
        s in w.sweeps && w.sweeps[s].job in w.jobs && m in Unacknowledged(c.tenant, w.sweeps[s].job, w.jobs[w.sweeps[s].job])
  {
    hide Unacknowledged;
  }

  lemma RepublishStep(c: Config, w: World, s: Guid)
    requires Known(w)
    ensures Decent(w, ApplySweepRepublish(c, w, s))
  {
    RepublishShape(c, w, s);
    SameListingsNow(w.sweeps);
    if s in w.sweeps && w.sweeps[s].job in w.jobs { UnacknowledgedDescribed(c.tenant, w.jobs, w.sweeps[s].job); }
    hide ApplySweepRepublish, SameListings, JobsEvolve, Calm, Modest, Honest, Describes, Unacknowledged;
    QuietStep(w, ApplySweepRepublish(c, w, s));
  }

  lemma FencedEvolves(clock: Instant, p: Job, clock': Instant, seen: set<Guid>)
    requires clock <= clock'
    ensures Evolves(clock, p, clock', Fenced(p), seen) && NoTakeover(p, clock', Fenced(p)) && !Active(Fenced(p).state)
  {
  }

  lemma AbortStep(w: World, s: Guid)
    requires Known(w)
    ensures Decent(w, w.(sweeps := w.sweeps - {s}))
  {
    hide RetriesMove, JobsEvolve, Calm, Describes, SameListings;
    DroppedListings(w.sweeps, s);
    FewerJobsEvolve(w, w.(sweeps := w.sweeps - {s}));
  }

  lemma MoveSweepStep(w: World, s: Guid, phase: SweepPhase)
    requires Known(w) && s in w.sweeps && !phase.Erasing?
    ensures Decent(w, MoveSweep(w, s, phase))
  {
    hide RetriesMove, JobsEvolve, Calm, Describes, SameListings;
    MovedListings(w.sweeps, s, w.sweeps[s].(phase := phase));
    FewerJobsEvolve(w, MoveSweep(w, s, phase));
  }

  lemma FenceCommits(w: World, at: Instant, s: Guid)
    requires w.clock <= at && Known(w) && s in w.sweeps && w.sweeps[s].job in w.jobs
    ensures var j := w.sweeps[s].job;
      Decent(w, MoveSweep(w, s, PastFence).(clock := at, jobs := w.jobs[j := Fenced(w.jobs[j])], ledger := Released(w.ledger, j)))
  {
    hide RetriesMove, JobsEvolve, Calm, Describes, SameListings, Fenced, Changes, StaysGone, NoTakeover;
    var j := w.sweeps[s].job;
    MovedListings(w.sweeps, s, w.sweeps[s].(phase := PastFence));
    FencedEvolves(w.clock, w.jobs[j], at, w.past.workers);
    OneJobEvolves(w, MoveSweep(w, s, PastFence).(clock := at, jobs := w.jobs[j := Fenced(w.jobs[j])], ledger := Released(w.ledger, j)),
                  j, Fenced(w.jobs[j]));
  }

  lemma FenceStep(w: World, at: Instant, s: Guid)
    requires w.clock <= at && Known(w)
    ensures Decent(w, ApplySweepFence(w, at, s))
  {
    hide Decent;
    NothingIsDecent(w);
    if s in w.sweeps {
      AbortStep(w, s);
      if w.sweeps[s].job in w.jobs { FenceCommits(w, at, s); }
    }
  }

  lemma ListStep(w: World, s: Guid)
    requires Known(w)
    ensures var w' := ApplySweepList(w, s);
      JobsEvolve(w, w') && Calm(w, w') && Modest(w, w') && NothingLost(w, w') && w'.outbox == w.outbox
  {
    hide RetriesMove, JobsEvolve, Calm, Discarded;
    FewerJobsEvolve(w, ApplySweepList(w, s));
  }

  lemma EraseShape(c: Config, w: World, s: Guid, a: Guid)
    ensures var w' := ApplySweepErase(c, w, s, a);
      SameTables(w, w') && w'.clock == w.clock && w'.outbox == w.outbox && SameListings(w.sweeps, w'.sweeps)
  {
    hide ReportKey;
  }

  lemma EraseStep(c: Config, w: World, s: Guid, a: Guid)
    requires Known(w)
    ensures var w' := ApplySweepErase(c, w, s, a);
      JobsEvolve(w, w') && Calm(w, w') && Modest(w, w') && Honest(w, w')
  {
    EraseShape(c, w, s, a);
    hide ApplySweepErase, SameListings, JobsEvolve, Calm, Modest, Honest, Describes;
    QuietStep(w, ApplySweepErase(c, w, s, a));
  }

  lemma DropRowsStep(w: World, s: Guid)
    requires Known(w)
    ensures Decent(w, ApplySweepDropRows(w, s))
  {
    hide RetriesMove, JobsEvolve, Calm, Describes, SameListings;
    var w' := ApplySweepDropRows(w, s);
    SameListingsNow(w.sweeps);
    if s in w.sweeps { MovedListings(w.sweeps, s, w.sweeps[s].(phase := Cleared)); }
    if w'.jobs == w.jobs {
      FewerJobsEvolve(w, w');
    } else {
      OneJobEvolves(w, w', w.sweeps[s].job, WithoutArtifacts(w.jobs[w.sweeps[s].job], w.sweeps[s].phase.ids));
    }
  }

  lemma JudgeStep(w: World, s: Guid)
    requires Known(w)
    ensures Decent(w, ApplySweepJudge(w, s))
  {
    hide Decent, KeepsPdf;
    NothingIsDecent(w);
    if s in w.sweeps {
      AbortStep(w, s);
      MoveSweepStep(w, s, Doomed);
    }
  }

  lemma DropJobStep(w: World, s: Guid)
    requires Known(w)
    ensures Decent(w, ApplySweepDropJob(w, s))
  {
    hide RetriesMove, JobsEvolve, Calm, Describes, SameListings;
    SameListingsNow(w.sweeps);
    DroppedListings(w.sweeps, s);
    FewerJobsEvolve(w, ApplySweepDropJob(w, s));
  }

  // ---------- Storage ----------

  lemma DeliverStep(c: Config, w: World, m: Publish)
    requires Known(w)
    ensures var w' := ApplyDeliverPublish(c, w, m);
      && JobsEvolve(w, w') && Calm(w, w') && NothingLost(w, w') && Honest(w, w') && w'.ledger == w.ledger
  {
    hide RetriesMove, JobsEvolve, Calm, Describes, SameListings, ValidPublication, PublishedRow, Conflicts;
    var w' := ApplyDeliverPublish(c, w, m);
    assert w' == w.(files := w'.files, acks := w'.acks);
    assert forall f | f in w'.files && f !in w.files :: m in w.outbox && m.id == f;
    hide ApplyDeliverPublish;
    SameListingsNow(w.sweeps);
    FewerJobsEvolve(w, w');
  }

  lemma FileStep(c: Config, w: World, at: Instant, id: Guid, op: Op)
    requires w.clock <= at && Known(w)
    ensures var w' := ApplyFileAction(c, w, at, id, op);
      JobsEvolve(w, w') && Calm(w, w') && Honest(w, w') && w'.ledger == w.ledger
  {
    hide RetriesMove, JobsEvolve, Calm, Describes, SameListings, Apply, Keys;
    SameListingsNow(w.sweeps);
    FewerJobsEvolve(w, ApplyFileAction(c, w, at, id, op));
  }

  lemma PurgeFilesStep(w: World)
    requires Known(w)
    ensures var w' := ApplyPurgeFiles(w);
      JobsEvolve(w, w') && Calm(w, w') && Honest(w, w') && w'.ledger == w.ledger
  {
    hide RetriesMove, JobsEvolve, Calm, Describes, SameListings, Keys;
    SameListingsNow(w.sweeps);
    FewerJobsEvolve(w, ApplyPurgeFiles(w));
  }

  // ---------- any action ----------

  ghost predicate SweepDecent(w: World, a: Action, w': World) {
    && JobsEvolve(w, w') && Calm(w, w') && Modest(w, w')
    && (!a.SweepErase? ==> NothingLost(w, w')) && (if a.SweepList? then w'.outbox == w.outbox else Honest(w, w'))
  }

  lemma PassStep(c: Config, w: World, a: Action)
    requires Timely(w, a) && Known(w)
    requires a.SweepSelect? || a.SweepRepublish? || a.SweepFence? || a.SweepAbort?
    ensures Decent(w, Next(c, w, a))
  {
    hide Decent, ApplySweepSelect, ApplySweepRepublish, ApplySweepFence;
    match a {
      case SweepSelect(at, s, j) => SelectStep(w, at, s, j);
      case SweepRepublish(s) => RepublishStep(c, w, s);
      case SweepFence(at, s) => FenceStep(w, at, s);
      case SweepAbort(s) => AbortStep(w, s);
    }
  }

  lemma DropStep(c: Config, w: World, a: Action)
    requires Known(w) && (a.SweepDropRows? || a.SweepJudge? || a.SweepDropJob?)
    ensures Decent(w, Next(c, w, a))
  {
    hide Decent, ApplySweepDropRows, ApplySweepJudge, ApplySweepDropJob;
    match a {
      case SweepDropRows(s) => DropRowsStep(w, s);
      case SweepJudge(s) => JudgeStep(w, s);
      case SweepDropJob(s) => DropJobStep(w, s);
    }
  }

  lemma DeleteStep(c: Config, w: World, a: Action)
    requires Known(w) && (a.SweepList? || a.SweepErase?)
    ensures SweepDecent(w, a, Next(c, w, a))
  {
    hide RetriesMove, JobsEvolve, Calm, Modest, NothingLost, Honest, ApplySweepList, ApplySweepErase;
    match a {
      case SweepList(s) => ListStep(w, s);
      case SweepErase(s, art) => EraseStep(c, w, s, art);
    }
  }

  lemma SweepStep(c: Config, w: World, a: Action)
    requires BySweep(a) && Timely(w, a) && Known(w)
    ensures SweepDecent(w, a, Next(c, w, a))
  {
    hide Next, Timely, JobsEvolve, Calm, Modest, NothingLost, Honest;
    if a.SweepList? || a.SweepErase? {
      DeleteStep(c, w, a);
    } else if a.SweepDropRows? || a.SweepJudge? || a.SweepDropJob? {
      DropStep(c, w, a);
    } else {
      PassStep(c, w, a);
    }
  }

  lemma OtherStep(c: Config, w: World, a: Action)
    requires !ByWorker(a) && !BySweep(a) && Timely(w, a) && Known(w)
    ensures var w' := Next(c, w, a);
      && JobsEvolve(w, w') && (!a.Submit? && !a.Retry? ==> Calm(w, w')) && Honest(w, w')
      && (!a.FileAction? && !a.PurgeFiles? ==> NothingLost(w, w'))
      && (!a.Submit? && !a.Retry? ==> NoNewEntries(w.ledger, w'.ledger))
      && (!a.DeliverPublish? && !a.FileAction? && !a.PurgeFiles? ==> w'.files == w.files && w'.filesPurged == w.filesPurged)
  {
    hide RetriesMove, JobsEvolve, Calm, ApplySubmit, ApplyCancel, ApplyReadRetry, ApplyRetry, DropRetry, ApplyPurgeReports,
      ApplyDeliverPublish, ApplyDeliverAck,
      ApplyFileAction, ApplyPurgeFiles, Describes;
    match a {
      case Submit(at, j, user, mode, sites, ids, month, quota) =>
        SubmitStep(c, w, at, j, user, mode, sites, ids, month, quota);
        SubmitAside(c, w, at, j, user, mode, sites, ids, month, quota);
      case Cancel(at, j, user) => CancelStep(c, w, at, j, user);
      case ReadRetry(at, r, j, user) => ReadRetryStep(w, at, r, j, user);
      case Retry(at, r, month, quota) =>
        RetryStep(c, w, at, r, month, quota);
        RetryAside(c, w, at, r, month, quota);
      case AbortRetry(r) => DropRetryStep(w, r);
      case PurgeReports(at) => PurgeStep(w, at);
      case DeliverPublish(m) => DeliverStep(c, w, m);
      case DeliverAck(id) => AckStep(w, id);
      case FileAction(at, id, op) => FileStep(c, w, at, id, op);
      case PurgeFiles => PurgeFilesStep(w);
    }
  }

  /** In any step jobs only evolve, and only admission makes one active. */
  lemma NextEvolves(c: Config, w: World, a: Action)
    requires Known(w)
    ensures JobsEvolve(w, Next(c, w, a))
    ensures !a.Submit? && !a.Retry? ==> Calm(w, Next(c, w, a))
  {
    hide RetriesMove, JobsEvolve, Calm;
    if !Timely(w, a) {
      FewerJobsEvolve(w, w);
    } else {
      hide Next;
      if ByWorker(a) { WorkerStep(c, w, a); } else if BySweep(a) { SweepStep(c, w, a); } else { OtherStep(c, w, a); }
    }
  }

  /** Outside admission and Storage nobody takes quota or touches files, and only the sweep deletes bytes. */
  lemma NextIsModest(c: Config, w: World, a: Action)
    requires Known(w)
    ensures var w' := Next(c, w, a);
      && (!a.Submit? && !a.Retry? ==> NoNewEntries(w.ledger, w'.ledger))
      && (!a.DeliverPublish? && !a.FileAction? && !a.PurgeFiles? ==> w'.files == w.files && w'.filesPurged == w.filesPurged)
      && (!a.SweepErase? && !a.FileAction? && !a.PurgeFiles? ==> NothingLost(w, w'))
  {
    hide RetriesMove, JobsEvolve, Calm, Honest;
    if Timely(w, a) {
      hide Next;
      if ByWorker(a) { WorkerStep(c, w, a); } else if BySweep(a) { SweepStep(c, w, a); } else { OtherStep(c, w, a); }
    }
  }

  lemma NextIsHonest(c: Config, w: World, a: Action)
    requires Known(w)
    ensures if a.SweepList? then Next(c, w, a).outbox == w.outbox else Honest(w, Next(c, w, a))
  {
    hide RetriesMove, JobsEvolve, Calm, Honest;
    if Timely(w, a) {
      hide Next;
      if ByWorker(a) { WorkerStep(c, w, a); } else if BySweep(a) { SweepStep(c, w, a); } else { OtherStep(c, w, a); }
    } else {
      SilentIsHonest(w, w);
    }
  }

  /** Every message a step sends describes its PDF as the step left it. */
  lemma MessagesAreTrue(c: Config, w: World, a: Action)
    requires Known(w)
    ensures forall m | m in Next(c, w, a).outbox && m !in w.outbox :: Describes(Next(c, w, a).jobs, m)
  {
    hide Describes, Next;
    NextIsHonest(c, w, a);
  }

  // ---------- retries ----------

  /** A pass gets past its fence only by changing the revision of its job. */
  ghost predicate FencesBump(w: World, w': World) {
    forall s | s in w'.sweeps && !w'.sweeps[s].phase.Selected? ::
      && s in w.sweeps && w'.sweeps[s].job == w.sweeps[s].job
      && var j := w.sweeps[s].job;
         w.sweeps[s].phase.Selected? && j in w'.jobs ==> j in w.jobs && w.jobs[j].revision < w'.jobs[j].revision
  }

  lemma MovedBump(w: World, w': World, s: Guid, phase: SweepPhase)
    requires s in w.sweeps && !w.sweeps[s].phase.Selected? && w'.sweeps == w.sweeps[s := w.sweeps[s].(phase := phase)]
    ensures FencesBump(w, w')
  {
  }

  lemma FewerBump(w: World, w': World, s: Guid)
    requires w'.sweeps == w.sweeps - {s}
    ensures FencesBump(w, w')
  {
  }

  lemma SelectBumps(w: World, at: Instant, s: Guid, j: Guid)
    ensures FencesBump(w, ApplySweepSelect(w, at, s, j))
  {
    hide Due, After;
  }

  lemma FenceMoves(w: World, w': World, s: Guid)
    requires s in w.sweeps && w.sweeps[s].job in w.jobs && w'.sweeps == w.sweeps[s := w.sweeps[s].(phase := PastFence)]
    requires w'.jobs == w.jobs[w.sweeps[s].job := Fenced(w.jobs[w.sweeps[s].job])]
    ensures FencesBump(w, w')
  {
  }

  lemma FenceBumps(w: World, at: Instant, s: Guid)
    ensures FencesBump(w, ApplySweepFence(w, at, s))
  {
    hide After, Released, Fenced, FencesBump;
    SameSweepsBump(w, w);
    if s in w.sweeps {
      FewerBump(w, w.(sweeps := w.sweeps - {s}), s);
      var j := w.sweeps[s].job;
      if j in w.jobs {
        FenceMoves(w, MoveSweep(w, s, PastFence).(clock := at, jobs := w.jobs[j := Fenced(w.jobs[j])], ledger := Released(w.ledger, j)), s);
      }
    }
  }

  lemma RepublishBumps(c: Config, w: World, s: Guid)
    ensures FencesBump(w, ApplySweepRepublish(c, w, s))
  {
    hide Unacknowledged, FencesBump;
    SameSweepsBump(w, ApplySweepRepublish(c, w, s));
  }

  lemma ListBumps(w: World, s: Guid)
    ensures FencesBump(w, ApplySweepList(w, s))
  {
    hide Discarded, FencesBump;
    var w' := ApplySweepList(w, s);
    if s in w.sweeps && w.sweeps[s].phase.PastFence? { MovedBump(w, w', s, w'.sweeps[s].phase); } else { SameSweepsBump(w, w'); }
  }

  lemma EraseBumps(c: Config, w: World, s: Guid, a: Guid)
    ensures FencesBump(w, ApplySweepErase(c, w, s, a))
  {
    hide FencesBump;
    var w' := ApplySweepErase(c, w, s, a);
    if s in w.sweeps && w.sweeps[s].phase.Erasing? && a in w.sweeps[s].phase.left {
      MovedBump(w, w', s, w'.sweeps[s].phase);
    } else {
      SameSweepsBump(w, w');
    }
  }

  lemma DropRowsBumps(w: World, s: Guid)
    ensures FencesBump(w, ApplySweepDropRows(w, s))
  {
    hide FencesBump, WithoutArtifacts;
    var w' := ApplySweepDropRows(w, s);
    if s in w.sweeps && w.sweeps[s].phase.Erasing? && w.sweeps[s].phase.left == {} {
      MovedBump(w, w', s, Cleared);
    } else {
      SameSweepsBump(w, w');
    }
  }

  lemma JudgeBumps(w: World, s: Guid)
    ensures FencesBump(w, ApplySweepJudge(w, s))
  {
    hide FencesBump, KeepsPdf;
    SameSweepsBump(w, w);
    if s in w.sweeps {
      FewerBump(w, w.(sweeps := w.sweeps - {s}), s);
      if w.sweeps[s].phase.Cleared? { MovedBump(w, MoveSweep(w, s, Doomed), s, Doomed); }
    }
  }

  lemma DropJobBumps(w: World, s: Guid)
    ensures FencesBump(w, ApplySweepDropJob(w, s))
  {
    hide FencesBump;
    var w' := ApplySweepDropJob(w, s);
    if s !in w.sweeps || !w.sweeps[s].phase.Doomed? { SameSweepsBump(w, w'); } else { FewerBump(w, w', s); }
  }

  lemma PassBumps(c: Config, w: World, a: Action)
    requires Timely(w, a) && (a.SweepSelect? || a.SweepRepublish? || a.SweepFence? || a.SweepAbort?)
    ensures FencesBump(w, Next(c, w, a))
  {
    hide Timely, FencesBump, ApplySweepSelect, ApplySweepRepublish, ApplySweepFence;
    match a {
      case SweepSelect(at, s, j) => SelectBumps(w, at, s, j);
      case SweepRepublish(s) => RepublishBumps(c, w, s);
      case SweepFence(at, s) => FenceBumps(w, at, s);
      case SweepAbort(s) => FewerBump(w, w.(sweeps := w.sweeps - {s}), s);
    }
  }

  lemma CleanBumps(c: Config, w: World, a: Action)
    requires Timely(w, a) && (a.SweepList? || a.SweepErase? || a.SweepDropRows? || a.SweepJudge? || a.SweepDropJob?)
    ensures FencesBump(w, Next(c, w, a))
  {
    hide Timely, FencesBump, ApplySweepList, ApplySweepErase, ApplySweepDropRows, ApplySweepJudge, ApplySweepDropJob;
    match a {
      case SweepList(s) => ListBumps(w, s);
      case SweepErase(s, art) => EraseBumps(c, w, s, art);
      case SweepDropRows(s) => DropRowsBumps(w, s);
      case SweepJudge(s) => JudgeBumps(w, s);
      case SweepDropJob(s) => DropJobBumps(w, s);
    }
  }

  lemma SameSweepsBump(w: World, w': World)
    requires w'.sweeps == w.sweeps
    ensures FencesBump(w, w')
  {
  }

  lemma UsersKeepSweeps(c: Config, w: World, at: Instant, j: Guid, user: Guid, r: Guid, month: int, quota: int)
    ensures ApplyCancel(c, w, at, j, user).sweeps == w.sweeps && ApplyReadRetry(w, at, r, j, user).sweeps == w.sweeps
    ensures ApplyRetry(c, w, at, r, month, quota).sweeps == w.sweeps && DropRetry(w, r).sweeps == w.sweeps
  {
    RetryAside(c, w, at, r, month, quota);
    hide ApplyRetry, CanceledJob, Released, Retryable;
  }

  lemma StorageKeepsSweeps(c: Config, w: World, at: Instant, id: Guid, op: Op)
    ensures ApplyDeliverAck(w, id).sweeps == w.sweeps && ApplyFileAction(c, w, at, id, op).sweeps == w.sweeps
    ensures ApplyPurgeFiles(w).sweeps == w.sweeps && ApplyPurgeReports(w, at).sweeps == w.sweeps
  {
    hide Acknowledged, Apply, Keys, Purged;
  }

  lemma DeliveryKeepsSweeps(c: Config, w: World, m: Publish)
    ensures ApplyDeliverPublish(c, w, m).sweeps == w.sweeps
  {
    hide ValidPublication, Conflicts, PublishedRow;
  }

  lemma OthersKeepSweeps(c: Config, w: World, a: Action)
    requires !ByWorker(a) && !BySweep(a) && Timely(w, a)
    ensures Next(c, w, a).sweeps == w.sweeps
  {
    hide Timely, ApplySubmit, ApplyCancel, ApplyReadRetry, ApplyRetry, DropRetry, ApplyPurgeReports, ApplyDeliverPublish,
      ApplyDeliverAck, ApplyFileAction, ApplyPurgeFiles;
    match a {
      case Submit(at, j, user, mode, sites, ids, month, quota) => SubmitAside(c, w, at, j, user, mode, sites, ids, month, quota);
      case Cancel(at, j, user) => UsersKeepSweeps(c, w, at, j, user, j, 0, 0);
      case ReadRetry(at, r, j, user) => UsersKeepSweeps(c, w, at, j, user, r, 0, 0);
      case Retry(at, r, month, quota) => UsersKeepSweeps(c, w, at, r, r, r, month, quota);
      case AbortRetry(r) => UsersKeepSweeps(c, w, w.clock, r, r, r, 0, 0);
      case PurgeReports(at) => StorageKeepsSweeps(c, w, at, 0, Derive);
      case DeliverPublish(m) => DeliveryKeepsSweeps(c, w, m);
      case DeliverAck(id) => StorageKeepsSweeps(c, w, w.clock, id, Derive);
      case FileAction(at, id, op) => StorageKeepsSweeps(c, w, at, id, op);
      case PurgeFiles => StorageKeepsSweeps(c, w, w.clock, 0, Derive);
    }
  }

  // ---------- who touches the open retries ----------

  ghost predicate KeepsRetries(w: World, w': World) { w'.retries == w.retries }

  lemma PassesKeepRetries(c: Config, w: World, at: Instant, s: Guid, j: Guid, a: Guid)
    ensures KeepsRetries(w, ApplySweepSelect(w, at, s, j)) && KeepsRetries(w, ApplySweepRepublish(c, w, s))
    ensures KeepsRetries(w, ApplySweepFence(w, at, s)) && KeepsRetries(w, ApplySweepList(w, s))
  {
    hide Due, After, Discarded, Unacknowledged, Fenced, Released;
  }

  lemma DropsKeepRetries(c: Config, w: World, s: Guid, a: Guid)
    ensures KeepsRetries(w, ApplySweepErase(c, w, s, a)) && KeepsRetries(w, ApplySweepDropRows(w, s))
  {
    hide WithoutArtifacts, ReportKey;
  }

  lemma EndsKeepRetries(w: World, s: Guid)
    ensures KeepsRetries(w, ApplySweepJudge(w, s)) && KeepsRetries(w, ApplySweepDropJob(w, s))
  {
    hide KeepsPdf;
  }

  lemma AbortKeepsRetries(w: World, s: Guid)
    ensures KeepsRetries(w, w.(sweeps := w.sweeps - {s}))
  {
  }

  lemma PassKeepsRetries(c: Config, w: World, a: Action)
    requires Timely(w, a) && (a.SweepSelect? || a.SweepRepublish? || a.SweepFence? || a.SweepList? || a.SweepAbort?)
    ensures KeepsRetries(w, Next(c, w, a))
  {
    hide Timely, KeepsRetries, ApplySweepSelect, ApplySweepRepublish, ApplySweepFence, ApplySweepList;
    match a {
      case SweepSelect(at, s, j) => PassesKeepRetries(c, w, at, s, j, s);
      case SweepRepublish(s) => PassesKeepRetries(c, w, w.clock, s, s, s);
      case SweepFence(at, s) => PassesKeepRetries(c, w, at, s, s, s);
      case SweepList(s) => PassesKeepRetries(c, w, w.clock, s, s, s);
      case SweepAbort(s) => AbortKeepsRetries(w, s);
    }
  }

  lemma DropKeepsRetries(c: Config, w: World, a: Action)
    requires Timely(w, a) && (a.SweepErase? || a.SweepDropRows? || a.SweepJudge? || a.SweepDropJob?)
    ensures KeepsRetries(w, Next(c, w, a))
  {
    hide Timely, KeepsRetries, ApplySweepErase, ApplySweepDropRows, ApplySweepJudge, ApplySweepDropJob;
    match a {
      case SweepErase(s, art) => DropsKeepRetries(c, w, s, art);
      case SweepDropRows(s) => DropsKeepRetries(c, w, s, s);
      case SweepJudge(s) => EndsKeepRetries(w, s);
      case SweepDropJob(s) => EndsKeepRetries(w, s);
    }
  }

  lemma StorageKeepsRetries(c: Config, w: World, at: Instant, id: Guid, op: Op, user: Guid)
    ensures KeepsRetries(w, ApplyDeliverAck(w, id)) && KeepsRetries(w, ApplyFileAction(c, w, at, id, op))
    ensures KeepsRetries(w, ApplyPurgeFiles(w)) && KeepsRetries(w, ApplyPurgeReports(w, at))
    ensures KeepsRetries(w, ApplyCancel(c, w, at, id, user))
  {
    hide Acknowledged, Apply, Keys, Purged, CanceledJob, Released;
  }

  lemma DeliveryKeepsRetries(c: Config, w: World, m: Publish)
    ensures KeepsRetries(w, ApplyDeliverPublish(c, w, m))
  {
    hide ValidPublication, Conflicts, PublishedRow;
  }

  lemma PurgeKeepsRetries(c: Config, w: World, a: Action)
    requires Timely(w, a) && (a.Cancel? || a.PurgeReports? || a.PurgeFiles?)
    ensures KeepsRetries(w, Next(c, w, a))
  {
    hide Timely, KeepsRetries, ApplyCancel, ApplyPurgeReports, ApplyPurgeFiles;
    match a {
      case Cancel(at, j, user) => StorageKeepsRetries(c, w, at, j, Derive, user);
      case PurgeReports(at) => StorageKeepsRetries(c, w, at, 0, Derive, 0);
      case PurgeFiles => StorageKeepsRetries(c, w, w.clock, 0, Derive, 0);
    }
  }

  lemma MessageKeepsRetries(c: Config, w: World, a: Action)
    requires Timely(w, a) && (a.DeliverPublish? || a.DeliverAck? || a.FileAction?)
    ensures KeepsRetries(w, Next(c, w, a))
  {
    hide Timely, KeepsRetries, ApplyDeliverPublish, ApplyDeliverAck, ApplyFileAction;
    match a {
      case DeliverPublish(m) => DeliveryKeepsRetries(c, w, m);
      case DeliverAck(id) => StorageKeepsRetries(c, w, w.clock, id, Derive, 0);
      case FileAction(at, id, op) => StorageKeepsRetries(c, w, at, id, op, 0);
    }
  }

  /** Only users open and end retries. */
  lemma NextKeepsRetries(c: Config, w: World, a: Action)
    requires !a.Submit? && !a.ReadRetry? && !a.Retry? && !a.AbortRetry?
    ensures KeepsRetries(w, Next(c, w, a))
  {
    if Timely(w, a) {
      hide Next;
      if ByWorker(a) {
        WorkerWrites(c, w, a);
        hide Committed, NewlyReady;
      } else if a.SweepErase? || a.SweepDropRows? || a.SweepJudge? || a.SweepDropJob? {
        DropKeepsRetries(c, w, a);
      } else if BySweep(a) {
        PassKeepsRetries(c, w, a);
      } else if a.Cancel? || a.PurgeReports? || a.PurgeFiles? {
        PurgeKeepsRetries(c, w, a);
      } else {
        MessageKeepsRetries(c, w, a);
      }
    }
  }

  lemma NextBumps(c: Config, w: World, a: Action)
    ensures FencesBump(w, Next(c, w, a))
  {
    if !Timely(w, a) {
      SameSweepsBump(w, w);
    } else if BySweep(a) {
      hide Next, FencesBump;
      if a.SweepSelect? || a.SweepRepublish? || a.SweepFence? || a.SweepAbort? { PassBumps(c, w, a); } else { CleanBumps(c, w, a); }
    } else {
      hide Next, FencesBump;
      if ByWorker(a) {
        WorkerWrites(c, w, a);
        hide Committed, NewlyReady;
      } else {
        OthersKeepSweeps(c, w, a);
      }
      SameSweepsBump(w, Next(c, w, a));
    }
  }

  /** What an open retry has read stays older than what any pass at work has done to the job. */
  lemma RetriesStay(w: World, w': World)
    requires RetriesFit(w) && JobsEvolve(w, w') && FencesBump(w, w')
    requires Known(w) && SweepsFit(w.clock, w.jobs, w.sweeps, w.past)
    ensures RetriesFit(w')
  {
    hide NoTakeover, StaysGone, Pending, Outdated, KeepsPdf, Discarded;
    forall r | r in w'.retries
      ensures var j := w'.retries[r].job;
        && j in w'.past.jobs
        && (j in w'.jobs ==>
              && w'.retries[r].revision <= w'.jobs[j].revision
              && forall s | s in w'.sweeps && w'.sweeps[s].job == j && !w'.sweeps[s].phase.Selected? ::
                w'.retries[r].revision < w'.jobs[j].revision)
    {
      var j := w'.retries[r].job;
      if j in w'.jobs {
        assert j in w.jobs;
        forall s | s in w'.sweeps && w'.sweeps[s].job == j && !w'.sweeps[s].phase.Selected?
          ensures w'.retries[r].revision < w'.jobs[j].revision
        {
          assert SweepFits(w.clock, w.jobs, w.sweeps[s], w.past);
        }
      }
    }
  }

  lemma RetriesFitNext(c: Config, w: World, a: Action)
    requires RetriesFit(w) && Known(w) && SweepsFit(w.clock, w.jobs, w.sweeps, w.past)
    ensures RetriesFit(Next(c, w, a))
  {
    hide Next, RetriesFit, JobsEvolve, Calm, FencesBump, SweepsFit, Known;
    NextEvolves(c, w, a);
    NextBumps(c, w, a);
    RetriesStay(w, Next(c, w, a));
  }

  /** Nobody reads a job that is gone in order to retry it. */
  lemma UnreadStays(w: World, w': World, j: Guid)
    requires JobsEvolve(w, w') && j in w.jobs && j in w'.jobs && Gone(w.jobs[j], w.clock) && !Pending(w, j)
    ensures !Pending(w', j)
  {
    hide NoTakeover, StaysGone;
    assert Changes(w.jobs[j], w'.jobs[j], w.past.workers);
  }
}
