/** The reporting tables, and the rows of a run: job, items, artifacts and quota entries. */
module ReportTypes {
  import opened Basics
  import opened FileRows

  datatype Mode = Single | Bulk | Aggregate

  datatype JobState =
    | Queued | Running | Completed | CompletedWithErrors | Failed | Canceled | Expired | Purging

  datatype ItemState = Queued | Running | Succeeded | Failed | Canceled

  datatype Item = Item(
    state: ItemState,
    attempt: nat,
    sites: seq<Guid>,
    generatedAt: Option<Instant>,
    error: Option<string>)

  /** A PDF attempt when `item` is set, the run's ZIP bundle otherwise. */
  datatype Artifact = Artifact(
    item: Option<Guid>,
    revision: int,
    ready: bool,
    filePublished: bool,
    bytes: int,
    createdAt: Instant)

  datatype Job = Job(
    requestedBy: Guid,
    mode: Mode,
    state: JobState,
    error: Option<string>,
    revision: int,
    owner: Option<Guid>,
    leaseUntil: Option<Instant>,
    createdAt: Instant,
    completedAt: Option<Instant>,
    expiresAt: Option<Instant>,
    metadataExpiresAt: Option<Instant>,
    items: map<Guid, Item>,
    artifacts: map<Guid, Artifact>)

  /** A reserved or consumed PDF unit. Its key in the ledger is the item id. */
  datatype Entry = Entry(job: Guid, month: int, consumed: bool)

  datatype Limits = Limits(
    itemTimeout: nat,
    artifactDays: nat,
    metadataDays: nat,
    maxQueuedJobs: nat,
    maxBatchItems: nat,
    maxAggregateSites: nat)

  /** The ceilings that start-up enforces on the configured limits. */
  predicate LimitsOk(l: Limits) {
    && 1 <= l.itemTimeout <= 300
    && 1 <= l.artifactDays <= 365
    && 1 <= l.metadataDays <= 730
    && 1 <= l.maxQueuedJobs <= 100
    && 1 <= l.maxBatchItems <= 1000
    && 1 <= l.maxAggregateSites <= 1000
  }

  /** How one rendering attempt ended. */
  datatype Outcome = Rendered(bytes: int) | Refused(code: string)

  /** The durable message that hands a ready PDF to Storage. */
  datatype Publish = Publish(
    id: Guid,
    key: BlobKey,
    bytes: int,
    createdBy: Guid,
    createdAt: Instant,
    sites: seq<Guid>,
    origin: string,
    originId: Guid)

  predicate Active(s: JobState) { s.Queued? || s.Running? }

  predicate Open(s: ItemState) { s.Queued? || s.Running? }

  /** `t > now` and `t <= now` on a nullable instant: null satisfies neither. */
  predicate After(t: Option<Instant>, now: Instant) { t.Some? && t.value > now }

  predicate Due(t: Option<Instant>, now: Instant) { t.Some? && t.value <= now }

  /** The fence of every worker commit. */
  predicate Owns(job: Job, revision: int, worker: Guid) {
    job.state.Running? && job.revision == revision && job.owner == Some(worker)
  }

  predicate ReadyPdf(job: Job, a: Guid, i: Guid) {
    a in job.artifacts && job.artifacts[a].ready && job.artifacts[a].item == Some(i)
  }

  predicate ReadyZip(job: Job, a: Guid, revision: int) {
    && a in job.artifacts && job.artifacts[a].ready
    && job.artifacts[a].item.None? && job.artifacts[a].revision == revision
  }

  function SucceededItems(job: Job): set<Guid> {
    set i | i in job.items && job.items[i].state.Succeeded?
  }
}
