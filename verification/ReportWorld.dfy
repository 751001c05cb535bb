/**
 * The report-run protocol as a state machine. A world holds the reporting tables, the
 * object store, Storage's generated files, the messages in flight, and every worker and
 * sweep pass between two of its transactions. One action is one committed transaction,
 * one read, or one object-store call. A refused or disabled action changes nothing, save
 * that a refused retry is over.
 */
module ReportWorld {
  import opened Basics
  import opened FileRows
  import opened ReportTypes
  import opened ReportRules

  datatype Config = Config(tenant: Tenant, limits: Limits, store: StoreKind)

  datatype Blob = Pdf(item: Guid) | Zip(pages: map<Guid, Blob>) | Excerpt

  /** Where a worker stands. Snapshots carry what the worker last read. */
  datatype Phase =
    | Idle
    | GotRow(revision: int, mode: Mode)
    | GotItems(revision: int, mode: Mode, items: map<Guid, Item>)
    | Planning(revision: int, mode: Mode, items: map<Guid, Item>, artifacts: map<Guid, Artifact>)
    | Rendering(revision: int, item: Guid, artifact: Guid)
    | Settling(revision: int, item: Guid, artifact: Guid, outcome: Outcome)
    | Zipping(revision: int, artifact: Guid, items: map<Guid, Item>, artifacts: map<Guid, Artifact>)
    | Zipped(revision: int, artifact: Guid, items: map<Guid, Item>, bytes: int)
    | Concluding(revision: int, verdict: JobState, error: Option<string>)
    | Leaving

  datatype Worker = Worker(job: Guid, phase: Phase)

  /** A sweep pass over one job; `purging` and `metadataDue` come from its first read. */
  datatype SweepPhase = Selected | PastFence | Erasing(ids: set<Guid>, left: set<Guid>) | Cleared | Doomed

  datatype Sweep = Sweep(job: Guid, purging: bool, expired: bool, metadataDue: bool, phase: SweepPhase)

  /** A retry between its read of the job and its commit: the job, and the revision it read. */
  datatype RetryRead = RetryRead(job: Guid, revision: int)

  datatype ArtifactOrigin = ArtifactOrigin(job: Guid, item: Option<Guid>, worker: Guid)

  datatype Bundle = Bundle(job: Guid, revision: int, artifact: Guid)

  /** What has happened so far; no rule reads it except to keep generated ids fresh. */
  datatype History = History(
    jobs: set<Guid>,
    itemHome: map<Guid, Guid>,
    artifacts: map<Guid, ArtifactOrigin>,
    workers: set<Guid>,
    bundles: set<Bundle>,
    successes: multiset<Guid>)

  datatype World = World(
    clock: Instant,
    jobs: map<Guid, Job>,
    ledger: map<Guid, Entry>,
    store: map<BlobKey, Blob>,
    outbox: set<Publish>,
    acks: set<Guid>,
    files: map<Guid, FileRow>,
    filesPurged: bool,
    workers: map<Guid, Worker>,
    sweeps: map<Guid, Sweep>,
    retries: map<Guid, RetryRead>,
    past: History)

  const Genesis: World :=
    World(0, map[], map[], map[], {}, {}, map[], false, map[], map[], map[],
          History({}, map[], map[], {}, {}, multiset{}))

  datatype Action =
    | Submit(at: Instant, job: Guid, user: Guid, mode: Mode, sites: seq<Guid>, items: seq<Guid>, month: int, quota: int)
    | Cancel(at: Instant, job: Guid, user: Guid)
    | ReadRetry(at: Instant, retry: Guid, job: Guid, user: Guid)
    | Retry(at: Instant, retry: Guid, month: int, quota: int)
    | AbortRetry(retry: Guid)
    | Claim(at: Instant, job: Guid, worker: Guid)
    | ReadRow(worker: Guid)
    | ReadItems(worker: Guid)
    | ReadArtifacts(worker: Guid)
    | StartItem(at: Instant, worker: Guid, item: Guid, artifact: Guid)
    | Render(worker: Guid, outcome: Outcome, wrote: bool)
    | Settle(at: Instant, worker: Guid)
    | Conclude(worker: Guid)
    | StartBundle(at: Instant, worker: Guid, artifact: Guid)
    | WriteBundle(worker: Guid, bytes: int)
    | FailBundle(worker: Guid)
    | ReadyBundle(at: Instant, worker: Guid, confirmed: bool)
    | Finish(at: Instant, worker: Guid)
    | Abandon(worker: Guid)
    | Release(at: Instant, worker: Guid)
    | Crash(worker: Guid)
    | SweepSelect(at: Instant, sweep: Guid, job: Guid)
    | SweepRepublish(sweep: Guid)
    | SweepFence(at: Instant, sweep: Guid)
    | SweepList(sweep: Guid)
    | SweepErase(sweep: Guid, artifact: Guid)
    | SweepDropRows(sweep: Guid)
    | SweepJudge(sweep: Guid)
    | SweepDropJob(sweep: Guid)
    | SweepAbort(sweep: Guid)
    | PurgeReports(at: Instant)
    | DeliverPublish(message: Publish)
    | DeliverAck(file: Guid)
    | FileAction(at: Instant, file: Guid, op: Op)
    | PurgeFiles

  // ---------- shared pieces ----------

  /** Commits a new version of a job and announces the PDFs that became ready in it. */
  function Commit(c: Config, w: World, at: Instant, j: Guid, job: Job): World
    requires j in w.jobs
  {
    w.(clock := at, jobs := w.jobs[j := job], outbox := w.outbox + NewlyReady(c.tenant, j, w.jobs[j], job))
  }

  function Move(w: World, id: Guid, phase: Phase): World
    requires id in w.workers
  {
    w.(workers := w.workers[id := w.workers[id].(phase := phase)])
  }

  function MoveSweep(w: World, s: Guid, phase: SweepPhase): World
    requires s in w.sweeps
  {
    w.(sweeps := w.sweeps[s := w.sweeps[s].(phase := phase)])
  }

  /** The worker still holds its job at the revision it read. */
  predicate Holds(w: World, id: Guid, revision: int)
    requires id in w.workers
  {
    w.workers[id].job in w.jobs && Owns(w.jobs[w.workers[id].job], revision, id)
  }

  predicate NothingQueued(items: map<Guid, Item>) {
    forall i | i in items :: !items[i].state.Queued?
  }

  predicate HasBundle(artifacts: map<Guid, Artifact>, revision: int) {
    exists a | a in artifacts :: artifacts[a].item.None? && artifacts[a].ready && artifacts[a].revision == revision
  }

  function Successes(items: map<Guid, Item>): set<Guid> {
    set i | i in items && items[i].state.Succeeded?
  }

  /** The ready PDFs the bundler finds for an item; its lookup wants exactly one. */
  function PdfsOf(artifacts: map<Guid, Artifact>, i: Guid): set<Guid> {
    set a | a in artifacts && artifacts[a].ready && artifacts[a].item == Some(i)
  }

  predicate Bundleable(c: Config, store: map<BlobKey, Blob>, j: Guid, items: map<Guid, Item>, artifacts: map<Guid, Artifact>) {
    forall i | i in Successes(items) ::
      exists a | a in artifacts :: PdfsOf(artifacts, i) == {a} && ReportKey(c.tenant, j, a) in store
  }

  function TheOnly(s: set<Guid>): Guid
    requires exists a :: s == {a}
  {
    var a :| s == {a}; a
  }

  /** The archive copies, item by item, the bytes it reads behind each PDF's key. */
  function Archive(c: Config, store: map<BlobKey, Blob>, j: Guid, items: map<Guid, Item>, artifacts: map<Guid, Artifact>): Blob
    requires Bundleable(c, store, j, items, artifacts)
  {
    Zip(map i | i in Successes(items) :: store[ReportKey(c.tenant, j, TheOnly(PdfsOf(artifacts, i)))])
  }

  // ---------- users ----------

  predicate FreshItems(w: World, items: seq<Guid>) {
    && (forall k | 0 <= k < |items| :: items[k] !in w.past.itemHome)
    && (forall k, l | 0 <= k < l < |items| :: items[k] != items[l])
  }

  function ApplySubmit(c: Config, w: World, at: Instant, j: Guid, user: Guid, mode: Mode, sites: seq<Guid>,
                       ids: seq<Guid>, month: int, quota: int): World {
    var groups := Groups(mode, sites);
    if j in w.past.jobs || !FreshItems(w, ids) || |ids| != |groups| then w
    else if !(1 <= |sites| <= SiteLimit(mode, c.limits)) then w
    else if ActiveJobs(w.jobs) >= c.limits.maxQueuedJobs || UsedIn(w.ledger, month) + |ids| > quota then w
    else
      w.(clock := at,
      jobs := w.jobs[j := NewJob(user, mode, NewItems(ids, groups), at)],
      ledger := Reserved(w.ledger, j, (set i | i in ids), month),
      past := w.past.(jobs := w.past.jobs + {j},
                      itemHome := w.past.itemHome + map i | i in ids :: j))
  }

  function ApplyCancel(c: Config, w: World, at: Instant, j: Guid, user: Guid): World {
    if j !in w.jobs || w.jobs[j].requestedBy != user || !Active(w.jobs[j].state) then w
    else
      w.(clock := at,
      jobs := w.jobs[j := CanceledJob(w.jobs[j], c.limits, at)],
      ledger := Released(w.ledger, j))
  }

  function ApplyReadRetry(w: World, at: Instant, r: Guid, j: Guid, user: Guid): World {
    if r in w.retries || j !in w.jobs || w.jobs[j].requestedBy != user || !Retryable(w.jobs[j], at) then w
    else w.(clock := at, retries := w.retries[r := RetryRead(j, w.jobs[j].revision)])
  }

  function DropRetry(w: World, r: Guid): World { w.(retries := w.retries - {r}) }

  /** The commit needs the row at the revision that was read; otherwise it throws. It does not look at the expiry again. */
  function ApplyRetry(c: Config, w: World, at: Instant, r: Guid, month: int, quota: int): World {
    if r !in w.retries then w
    else
      var j := w.retries[r].job;
      if j !in w.jobs || w.jobs[j].revision != w.retries[r].revision || !Reopenable(w.jobs[j]) then DropRetry(w, r)
      else
        var again := FailedItems(w.jobs[j]);
        if ActiveJobs(w.jobs) >= c.limits.maxQueuedJobs then DropRetry(w, r)
        else if again != {} && UsedIn(w.ledger, month) + |again| > quota then DropRetry(w, r)
        else if again * w.ledger.Keys != {} then DropRetry(w, r)  // the insert would break the primary key
        else
          DropRetry(w, r)
          .(clock := at,
          jobs := w.jobs[j := RetriedJob(w.jobs[j])],
          ledger := Reserved(w.ledger, j, again, month))
  }

  // ---------- workers ----------

  function ApplyClaim(c: Config, w: World, at: Instant, j: Guid, id: Guid): World {
    if id in w.past.workers || j !in w.jobs || !Claimable(w.jobs[j], at) then w
    else
      Commit(c, w, at, j, Claimed(w.jobs[j], id, c.limits, at))
      .(workers := w.workers[id := Worker(j, Idle)], past := w.past.(workers := w.past.workers + {id}))
  }

  function ApplyReadRow(w: World, id: Guid): World {
    if id !in w.workers || !w.workers[id].phase.Idle? then w
    else
      var j := w.workers[id].job;
      if j !in w.jobs || !w.jobs[j].state.Running? || w.jobs[j].owner != Some(id) then Move(w, id, Leaving)
      else Move(w, id, GotRow(w.jobs[j].revision, w.jobs[j].mode))
  }

  function ApplyReadItems(w: World, id: Guid): World {
    if id !in w.workers || !w.workers[id].phase.GotRow? then w
    else
      var j, p := w.workers[id].job, w.workers[id].phase;
      Move(w, id, GotItems(p.revision, p.mode, if j in w.jobs then w.jobs[j].items else map[]))
  }

  function ApplyReadArtifacts(w: World, id: Guid): World {
    if id !in w.workers || !w.workers[id].phase.GotItems? then w
    else
      var j, p := w.workers[id].job, w.workers[id].phase;
      Move(w, id, Planning(p.revision, p.mode, p.items, if j in w.jobs then w.jobs[j].artifacts else map[]))
  }

  function ApplyStartItem(c: Config, w: World, at: Instant, id: Guid, i: Guid, a: Guid): World {
    if id !in w.workers || !w.workers[id].phase.Planning? || a in w.past.artifacts then w
    else
      var j, p := w.workers[id].job, w.workers[id].phase;
      if i !in p.items || !p.items[i].state.Queued? then w
      else if !Holds(w, id, p.revision) || i !in w.jobs[j].items then Move(w, id, Leaving)
      else
        Move(Commit(c, w, at, j, Started(w.jobs[j], i, a, c.limits, at)), id, Rendering(p.revision, i, a))
        .(past := w.past.(artifacts := w.past.artifacts[a := ArtifactOrigin(j, Some(i), id)]))
  }

  /** A successful rendering has written non-empty bytes; a refused one may have, too. */
  function ApplyRender(c: Config, w: World, id: Guid, outcome: Outcome, wrote: bool): World {
    if id !in w.workers || !w.workers[id].phase.Rendering? then w
    else
      var j, p := w.workers[id].job, w.workers[id].phase;
      if outcome.Rendered? && (outcome.bytes <= 0 || !wrote) then w
      else
        Move(w, id, Settling(p.revision, p.item, p.artifact, outcome))
        .(store := if wrote then w.store[ReportKey(c.tenant, j, p.artifact) := Pdf(p.item)] else w.store)
  }

  function ApplySettle(c: Config, w: World, at: Instant, id: Guid): World {
    if id !in w.workers || !w.workers[id].phase.Settling? then w
    else
      var j, p := w.workers[id].job, w.workers[id].phase;
      if !Holds(w, id, p.revision) || p.item !in w.jobs[j].items || p.artifact !in w.jobs[j].artifacts then
        Move(w, id, Leaving)
      else
        Move(Commit(c, w, at, j, SettledJob(w.jobs[j], p.item, p.artifact, p.outcome, at)), id, Idle)
        .(ledger := Settled(w.ledger, p.item, p.outcome.Rendered?),
        past := if p.outcome.Rendered? then w.past.(successes := w.past.successes + multiset{p.item}) else w.past)
  }

  predicate WantsBundle(p: Phase)
    requires p.Planning?
  {
    p.mode.Bulk? && Successes(p.items) != {} && !HasBundle(p.artifacts, p.revision)
  }

  function ApplyConclude(w: World, id: Guid): World {
    if id !in w.workers || !w.workers[id].phase.Planning? then w
    else
      var p := w.workers[id].phase;
      if !NothingQueued(p.items) || WantsBundle(p) then w
      else Move(w, id, Concluding(p.revision, Verdict(p.items), None))
  }

  function ApplyStartBundle(c: Config, w: World, at: Instant, id: Guid, a: Guid): World {
    if id !in w.workers || !w.workers[id].phase.Planning? || a in w.past.artifacts then w
    else
      var j, p := w.workers[id].job, w.workers[id].phase;
      if !NothingQueued(p.items) || !WantsBundle(p) then w
      else if !Holds(w, id, p.revision) then Move(w, id, Leaving)
      else
        Move(Commit(c, w, at, j, WithBundle(w.jobs[j], a, c.limits, at)), id, Zipping(p.revision, a, p.items, p.artifacts))
        .(past := w.past.(artifacts := w.past.artifacts[a := ArtifactOrigin(j, None, id)]))
  }

  function ApplyWriteBundle(c: Config, w: World, id: Guid, bytes: int): World {
    if id !in w.workers || !w.workers[id].phase.Zipping? then w
    else
      var j, p := w.workers[id].job, w.workers[id].phase;
      if bytes <= 0 || !Bundleable(c, w.store, j, p.items, p.artifacts) then w
      else
        Move(w, id, Zipped(p.revision, p.artifact, p.items, bytes))
        .(store := w.store[ReportKey(c.tenant, j, p.artifact) := Archive(c, w.store, j, p.items, p.artifacts)])
  }

  /** Any failure between the bundle's intent and its commit ends in a failed run. */
  function ApplyFailBundle(w: World, id: Guid): World {
    if id !in w.workers || !(w.workers[id].phase.Zipping? || w.workers[id].phase.Zipped?) then w
    else Move(w, id, Concluding(w.workers[id].phase.revision, JobState.Failed, Some("bundle_failed")))
  }

  /** The commit itself may succeed and still surface as an exception (`confirmed` false). */
  function ApplyReadyBundle(c: Config, w: World, at: Instant, id: Guid, confirmed: bool): World {
    if id !in w.workers || !w.workers[id].phase.Zipped? then w
    else
      var j, p := w.workers[id].job, w.workers[id].phase;
      var next := if confirmed then Concluding(p.revision, Verdict(p.items), None)
                  else Concluding(p.revision, JobState.Failed, Some("bundle_failed"));
      if !Holds(w, id, p.revision) || p.artifact !in w.jobs[j].artifacts then Move(w, id, next)
      else
        Move(Commit(c, w, at, j, BundleReady(w.jobs[j], p.artifact, p.bytes)), id, next)
        .(past := w.past.(bundles := w.past.bundles + {Bundle(j, p.revision, p.artifact)}))
  }

  function ApplyFinish(c: Config, w: World, at: Instant, id: Guid): World {
    if id !in w.workers || !w.workers[id].phase.Concluding? then w
    else
      var j, p := w.workers[id].job, w.workers[id].phase;
      if !Holds(w, id, p.revision) then Move(w, id, Leaving)
      else
        Move(Commit(c, w, at, j, Finished(w.jobs[j].(error := p.error), p.verdict, c.limits, at)), id, Leaving)
  }

  function ApplyRelease(c: Config, w: World, at: Instant, id: Guid): World {
    if id !in w.workers || !w.workers[id].phase.Leaving? then w
    else
      var j := w.workers[id].job;
      var gone := w.(workers := w.workers - {id});
      if j !in w.jobs || w.jobs[j].owner != Some(id) then gone
      else Commit(c, gone, at, j, LeaseReleased(w.jobs[j]))
  }

  // ---------- the recovery sweep ----------

  function ApplySweepSelect(w: World, at: Instant, s: Guid, j: Guid): World {
    if s in w.sweeps || j !in w.jobs || After(w.jobs[j].leaseUntil, at) then w
    else
      var job := w.jobs[j];
      w.(clock := at,
      sweeps := w.sweeps[s := Sweep(j, job.state.Purging?, Due(job.expiresAt, at), Due(job.metadataExpiresAt, at), Selected)])
  }

  function ApplySweepRepublish(c: Config, w: World, s: Guid): World {
    if s !in w.sweeps || !w.sweeps[s].phase.Selected? || w.sweeps[s].purging || w.sweeps[s].job !in w.jobs then w
    else w.(outbox := w.outbox + Unacknowledged(c.tenant, w.sweeps[s].job, w.jobs[w.sweeps[s].job]))
  }

  function ApplySweepFence(w: World, at: Instant, s: Guid): World {
    if s !in w.sweeps || !w.sweeps[s].phase.Selected? || !(w.sweeps[s].purging || w.sweeps[s].expired) then w
    else
      var j := w.sweeps[s].job;
      if j !in w.jobs || After(w.jobs[j].leaseUntil, at) then w.(sweeps := w.sweeps - {s})
      else
        MoveSweep(w, s, PastFence)
        .(clock := at, jobs := w.jobs[j := Fenced(w.jobs[j])], ledger := Released(w.ledger, j))
  }

  /** Everything of a purging job, and otherwise only failed attempts and bundles. */
  function Discarded(job: Job, purging: bool): set<Guid> {
    set a | a in job.artifacts && (purging || !job.artifacts[a].ready || job.artifacts[a].item.None?)
  }

  function ApplySweepList(w: World, s: Guid): World {
    if s !in w.sweeps || !w.sweeps[s].phase.PastFence? then w
    else
      var j := w.sweeps[s].job;
      var ids := if j in w.jobs then Discarded(w.jobs[j], w.sweeps[s].purging) else {};
      MoveSweep(w, s, Erasing(ids, ids))
  }

  function ApplySweepErase(c: Config, w: World, s: Guid, a: Guid): World {
    if s !in w.sweeps || !w.sweeps[s].phase.Erasing? || a !in w.sweeps[s].phase.left then w
    else
      var p := w.sweeps[s].phase;
      MoveSweep(w, s, Erasing(p.ids, p.left - {a})).(store := w.store - {ReportKey(c.tenant, w.sweeps[s].job, a)})
  }

  function ApplySweepDropRows(w: World, s: Guid): World {
    if s !in w.sweeps || !w.sweeps[s].phase.Erasing? || w.sweeps[s].phase.left != {} then w
    else
      var j := w.sweeps[s].job;
      MoveSweep(w, s, Cleared)
      .(jobs := if j in w.jobs then w.jobs[j := WithoutArtifacts(w.jobs[j], w.sweeps[s].phase.ids)] else w.jobs)
  }

  predicate KeepsPdf(job: Job) {
    exists a | a in job.artifacts :: job.artifacts[a].ready && job.artifacts[a].item.Some?
  }

  function ApplySweepJudge(w: World, s: Guid): World {
    if s !in w.sweeps || !w.sweeps[s].phase.Cleared? then w
    else
      var j := w.sweeps[s].job;
      if !w.sweeps[s].metadataDue || (j in w.jobs && KeepsPdf(w.jobs[j])) then w.(sweeps := w.sweeps - {s})
      else MoveSweep(w, s, Doomed)
  }

  function ApplySweepDropJob(w: World, s: Guid): World {
    if s !in w.sweeps || !w.sweeps[s].phase.Doomed? then w
    else w.(jobs := w.jobs - {w.sweeps[s].job}, sweeps := w.sweeps - {s})
  }

  function ApplyPurgeReports(w: World, at: Instant): World {
    w.(clock := at, jobs := map j | j in w.jobs :: Purged(w.jobs[j], at), ledger := map[])
  }

  // ---------- Storage ----------

  function ApplyDeliverPublish(c: Config, w: World, m: Publish): World {
    if m !in w.outbox || w.filesPurged then w
    else if m.id !in w.files then
      if !ValidPublication(c.tenant, m) then w
      else w.(files := w.files[m.id := PublishedRow(m)], acks := w.acks + {m.id})
    else if Conflicts(w.files[m.id], m) then w
    else w.(acks := w.acks + {m.id})
  }

  function ApplyDeliverAck(w: World, id: Guid): World {
    if id !in w.acks then w
    else w.(jobs := map j | j in w.jobs :: Acknowledged(w.jobs[j], id))
  }

  function ApplyFileAction(c: Config, w: World, at: Instant, id: Guid, op: Op): World {
    if id !in w.files then w
    else
      var change := Apply(w.files[id], op, at, c.store);
      w.(clock := at,
      files := w.files[id := change.row],
      store := match change.effect
               case Keep => w.store
               case EraseBytes => w.store - Keys(w.files[id])
               case WritePreview => w.store[w.files[id].key.(preview := true) := Excerpt])
  }

  function ApplyPurgeFiles(w: World): World {
    w.(files := map[],
    filesPurged := true,
    store := w.store - set id, key | id in w.files && key in Keys(w.files[id]) :: key)
  }

  // ---------- the machine ----------

  /** The time of an action, if it reads the clock. */
  function TimeOf(a: Action): Option<Instant> {
    match a
    case Submit(at, _, _, _, _, _, _, _) => Some(at)
    case Cancel(at, _, _) => Some(at)
    case ReadRetry(at, _, _, _) => Some(at)
    case Retry(at, _, _, _) => Some(at)
    case Claim(at, _, _) => Some(at)
    case StartItem(at, _, _, _) => Some(at)
    case Settle(at, _) => Some(at)
    case StartBundle(at, _, _) => Some(at)
    case ReadyBundle(at, _, _) => Some(at)
    case Finish(at, _) => Some(at)
    case Release(at, _) => Some(at)
    case SweepSelect(at, _, _) => Some(at)
    case SweepFence(at, _) => Some(at)
    case PurgeReports(at) => Some(at)
    case FileAction(at, _, _) => Some(at)
    case _ => None
  }

  /** Actions with a time must not run the clock backwards. */
  predicate Timely(w: World, a: Action) {
    TimeOf(a).Some? ==> w.clock <= TimeOf(a).value
  }

  function Next(c: Config, w: World, a: Action): World {
    if !Timely(w, a) then w
    else
      match a
      case Submit(at, j, user, mode, sites, items, month, quota) => ApplySubmit(c, w, at, j, user, mode, sites, items, month, quota)
      case Cancel(at, j, user) => ApplyCancel(c, w, at, j, user)
      case ReadRetry(at, r, j, user) => ApplyReadRetry(w, at, r, j, user)
      case Retry(at, r, month, quota) => ApplyRetry(c, w, at, r, month, quota)
      case AbortRetry(r) => DropRetry(w, r)
      case Claim(at, j, id) => ApplyClaim(c, w, at, j, id)
      case ReadRow(id) => ApplyReadRow(w, id)
      case ReadItems(id) => ApplyReadItems(w, id)
      case ReadArtifacts(id) => ApplyReadArtifacts(w, id)
      case StartItem(at, id, i, art) => ApplyStartItem(c, w, at, id, i, art)
      case Render(id, outcome, wrote) => ApplyRender(c, w, id, outcome, wrote)
      case Settle(at, id) => ApplySettle(c, w, at, id)
      case Conclude(id) => ApplyConclude(w, id)
      case StartBundle(at, id, art) => ApplyStartBundle(c, w, at, id, art)
      case WriteBundle(id, bytes) => ApplyWriteBundle(c, w, id, bytes)
      case FailBundle(id) => ApplyFailBundle(w, id)
      case ReadyBundle(at, id, confirmed) => ApplyReadyBundle(c, w, at, id, confirmed)
      case Finish(at, id) => ApplyFinish(c, w, at, id)
      case Abandon(id) => if id in w.workers then Move(w, id, Leaving) else w
      case Release(at, id) => ApplyRelease(c, w, at, id)
      case Crash(id) => w.(workers := w.workers - {id})
      case SweepSelect(at, s, j) => ApplySweepSelect(w, at, s, j)
      case SweepRepublish(s) => ApplySweepRepublish(c, w, s)
      case SweepFence(at, s) => ApplySweepFence(w, at, s)
      case SweepList(s) => ApplySweepList(w, s)
      case SweepErase(s, art) => ApplySweepErase(c, w, s, art)
      case SweepDropRows(s) => ApplySweepDropRows(w, s)
      case SweepJudge(s) => ApplySweepJudge(w, s)
      case SweepDropJob(s) => ApplySweepDropJob(w, s)
      case SweepAbort(s) => w.(sweeps := w.sweeps - {s})
      case PurgeReports(at) => ApplyPurgeReports(w, at)
      case DeliverPublish(m) => ApplyDeliverPublish(c, w, m)
      case DeliverAck(id) => ApplyDeliverAck(w, id)
      case FileAction(at, id, op) => ApplyFileAction(c, w, at, id, op)
      case PurgeFiles => ApplyPurgeFiles(w)
  }

  predicate ByWorker(a: Action) {
    || a.Claim? || a.ReadRow? || a.ReadItems? || a.ReadArtifacts? || a.StartItem? || a.Render? || a.Settle? || a.Conclude?
    || a.StartBundle? || a.WriteBundle? || a.FailBundle? || a.ReadyBundle? || a.Finish? || a.Abandon? || a.Release? || a.Crash?
  }

  predicate BySweep(a: Action) {
    || a.SweepSelect? || a.SweepRepublish? || a.SweepFence? || a.SweepList? || a.SweepErase? || a.SweepDropRows?
    || a.SweepJudge? || a.SweepDropJob? || a.SweepAbort?
  }

  /** The world after a whole run. */
  function Exec(c: Config, w: World, run: seq<Action>): World
    decreases |run|
  {
    if run == [] then w else Next(c, Exec(c, w, run[..|run| - 1]), run[|run| - 1])
  }
}
