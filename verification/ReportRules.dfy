/**
 * What each reporting transaction does to the rows it touches, one function per
 * transaction body. The class in ReportStore carries them out on the tables, and
 * ReportWorld interleaves them.
 */
module ReportRules {
  import opened Basics
  import opened FileRows
  import opened ReportTypes

  // ---------- the quota ledger ----------

  function Reserved(ledger: map<Guid, Entry>, j: Guid, ids: set<Guid>, month: int): map<Guid, Entry> {
    ledger + map i | i in ids :: Entry(j, month, false)
  }

  /** Drops the job's unconsumed entries. */
  function Released(ledger: map<Guid, Entry>, j: Guid): map<Guid, Entry> {
    map i | i in ledger && !(ledger[i].job == j && !ledger[i].consumed) :: ledger[i]
  }

  /** Success turns the item's reservation into consumption; failure gives it back. */
  function Settled(ledger: map<Guid, Entry>, i: Guid, succeeded: bool): map<Guid, Entry> {
    if i !in ledger then ledger
    else if succeeded then ledger[i := ledger[i].(consumed := true)]
    else if !ledger[i].consumed then ledger - {i}
    else ledger
  }

  function UsedIn(ledger: map<Guid, Entry>, month: int): nat {
    |set i | i in ledger && ledger[i].month == month|
  }

  // ---------- admission ----------

  function ActiveJobs(jobs: map<Guid, Job>): nat {
    |set j | j in jobs && Active(jobs[j].state)|
  }

  lemma Counted(jobs: map<Guid, Job>, ledger: map<Guid, Entry>, month: int)
    ensures ActiveJobs(jobs) == |set k | k in jobs && (jobs[k].state.Queued? || jobs[k].state.Running?)|
    ensures UsedIn(ledger, month) == |set i | i in ledger && ledger[i].month == month|
  {
    assert (set k | k in jobs && Active(jobs[k].state)) == set k | k in jobs && (jobs[k].state.Queued? || jobs[k].state.Running?);
  }

  function SiteLimit(mode: Mode, limits: Limits): nat {
    match mode
    case Single => 1
    case Aggregate => limits.maxAggregateSites
    case Bulk => limits.maxBatchItems
  }

  /** One PDF over all sites for an aggregate, one PDF a site otherwise. */
  function Groups(mode: Mode, sites: seq<Guid>): seq<seq<Guid>> {
    if mode.Aggregate? then [sites] else seq(|sites|, k requires 0 <= k < |sites| => [sites[k]])
  }

  function NewItems(ids: seq<Guid>, groups: seq<seq<Guid>>): map<Guid, Item>
    requires |ids| == |groups|
  {
    if ids == [] then map[]
    else
      var n := |ids| - 1;
      NewItems(ids[..n], groups[..n])[ids[n] := Item(ItemState.Queued, 0, groups[n], None, None)]
  }

  /** One waiting item an id, over the id's group of sites. */
  lemma {:induction false} NewItemsAre(ids: seq<Guid>, groups: seq<seq<Guid>>)
    requires |ids| == |groups| && forall k, l | 0 <= k < l < |ids| :: ids[k] != ids[l]
    ensures NewItems(ids, groups).Keys == set i | i in ids
    ensures forall k | 0 <= k < |ids| :: NewItems(ids, groups)[ids[k]] == Item(ItemState.Queued, 0, groups[k], None, None)
  {
    if ids != [] {
      var n := |ids| - 1;
      NewItemsAre(ids[..n], groups[..n]);
      assert ids == ids[..n] + [ids[n]];
    }
  }

  function NewJob(user: Guid, mode: Mode, items: map<Guid, Item>, now: Instant): Job {
    Job(user, mode, JobState.Queued, None, 0, None, None, now, None, None, None, items, map[])
  }

  // ---------- the worker ----------

  predicate Claimable(job: Job, now: Instant) {
    Active(job.state) && !After(job.leaseUntil, now) && !Due(job.expiresAt, now)
  }

  function Requeue(item: Item): Item {
    if item.state.Running? then item.(state := ItemState.Queued) else item
  }

  function LeaseEnd(limits: Limits, now: Instant): Option<Instant> {
    Some(now + limits.itemTimeout + 60)
  }

  function Claimed(job: Job, worker: Guid, limits: Limits, now: Instant): Job {
    job.(state := JobState.Running,
    owner := Some(worker),
    leaseUntil := LeaseEnd(limits, now),
    items := map i | i in job.items :: Requeue(job.items[i]))
  }

  function Started(job: Job, i: Guid, a: Guid, limits: Limits, now: Instant): Job
    requires i in job.items
  {
    job.(leaseUntil := LeaseEnd(limits, now),
    items := job.items[i := job.items[i].(state := ItemState.Running, attempt := job.items[i].attempt + 1)],
    artifacts := job.artifacts[a := Artifact(Some(i), job.revision, false, false, 0, now)])
  }

  function SettledItem(item: Item, outcome: Outcome, now: Instant): Item {
    match outcome
    case Rendered(_) => item.(state := ItemState.Succeeded, generatedAt := Some(now), error := None)
    case Refused(code) => item.(state := ItemState.Failed, generatedAt := Some(now), error := Some(code))
  }

  function SettledJob(job: Job, i: Guid, a: Guid, outcome: Outcome, now: Instant): Job
    requires i in job.items && a in job.artifacts
  {
    var settled := job.(items := job.items[i := SettledItem(job.items[i], outcome, now)]);
    if outcome.Rendered? then
      settled.(artifacts := job.artifacts[a := job.artifacts[a].(ready := true, bytes := outcome.bytes)])
    else settled
  }

  function WithBundle(job: Job, a: Guid, limits: Limits, now: Instant): Job {
    job.(leaseUntil := LeaseEnd(limits, now),
    artifacts := job.artifacts[a := Artifact(None, job.revision, false, false, 0, now)])
  }

  function BundleReady(job: Job, a: Guid, bytes: int): Job
    requires a in job.artifacts
  {
    job.(artifacts := job.artifacts[a := job.artifacts[a].(ready := true, bytes := bytes)])
  }

  /** The verdict on a run whose items are all terminal. */
  function Verdict(items: map<Guid, Item>): JobState {
    if forall i | i in items :: !items[i].state.Succeeded? then JobState.Failed
    else if forall i | i in items :: items[i].state.Succeeded? then Completed
    else CompletedWithErrors
  }

  /** Retention starts at the first completion and is never restarted. */
  function Finished(job: Job, state: JobState, limits: Limits, now: Instant): Job {
    var metadataDays := if limits.artifactDays >= limits.metadataDays then limits.artifactDays else limits.metadataDays;
    job.(state := state,
    completedAt := Some(now),
    expiresAt := if job.expiresAt.Some? then job.expiresAt else Some(now + limits.artifactDays * DAY),
    metadataExpiresAt :=
      if job.metadataExpiresAt.Some? then job.metadataExpiresAt else Some(now + metadataDays * DAY))
  }

  function LeaseReleased(job: Job): Job {
    job.(owner := None, leaseUntil := None)
  }

  // ---------- user commands ----------

  function CancelItem(item: Item): Item {
    if Open(item.state) then item.(state := ItemState.Canceled) else item
  }

  function CanceledJob(job: Job, limits: Limits, now: Instant): Job {
    Finished(job.(revision := job.revision + 1), JobState.Canceled, limits, now)
    .(items := map i | i in job.items :: CancelItem(job.items[i]))
  }

  predicate Reopenable(job: Job) { job.state.Failed? || job.state.CompletedWithErrors? }

  predicate Retryable(job: Job, now: Instant) { Reopenable(job) && !Due(job.expiresAt, now) }

  function FailedItems(job: Job): set<Guid> {
    set i | i in job.items && job.items[i].state.Failed?
  }

  function RetryItem(item: Item): Item {
    if item.state.Failed? then item.(state := ItemState.Queued, error := None) else item
  }

  function RetriedJob(job: Job): Job {
    job.(state := JobState.Queued,
    error := None,
    revision := job.revision + 1,
    owner := None,
    leaseUntil := None,
    items := map i | i in job.items :: RetryItem(job.items[i]))
  }

  // ---------- recovery sweep and purge ----------

  function Fenced(job: Job): Job {
    job.(state := if Active(job.state) then JobState.Expired else job.state,
    revision := job.revision + 1,
    owner := None,
    leaseUntil := None)
  }

  function Purged(job: Job, now: Instant): Job {
    job.(state := Purging,
    revision := job.revision + 1,
    expiresAt := Some(now),
    metadataExpiresAt := Some(now))
  }

  function WithoutArtifacts(job: Job, ids: set<Guid>): Job {
    job.(artifacts := job.artifacts - ids)
  }

  /** The acknowledgement from Storage reaches only a ready PDF. */
  function AckArtifact(art: Artifact): Artifact {
    if art.ready && art.item.Some? then art.(filePublished := true) else art
  }

  function Acknowledged(job: Job, a: Guid): Job {
    if a in job.artifacts then job.(artifacts := job.artifacts[a := AckArtifact(job.artifacts[a])]) else job
  }

  // ---------- publication ----------

  function ReportKey(tenant: Tenant, j: Guid, a: Guid): BlobKey {
    BlobKey(tenant, ReportPath(j, a), false)
  }

  function Announce(tenant: Tenant, j: Guid, job: Job, a: Guid, i: Guid): Publish
    requires a in job.artifacts && i in job.items
  {
    var at := if job.items[i].generatedAt.Some? then job.items[i].generatedAt.value else job.artifacts[a].createdAt;
    Publish(a, ReportKey(tenant, j, a), job.artifacts[a].bytes, job.requestedBy, at, job.items[i].sites, "report", j)
  }

  /** The PDFs of `after` that were not ready in `before`, announced to Storage. */
  function NewlyReady(tenant: Tenant, j: Guid, before: Job, after: Job): set<Publish> {
    set a | a in after.artifacts && after.artifacts[a].ready && after.artifacts[a].item.Some?
            && after.artifacts[a].item.value in after.items
            && !(a in before.artifacts && before.artifacts[a].ready)
         :: Announce(tenant, j, after, a, after.artifacts[a].item.value)
  }

  /** The ready PDFs Storage has not acknowledged, announced again by the sweep. */
  function Unacknowledged(tenant: Tenant, j: Guid, job: Job): set<Publish> {
    set a | a in job.artifacts && job.artifacts[a].ready && job.artifacts[a].item.Some?
            && job.artifacts[a].item.value in job.items && !job.artifacts[a].filePublished
         :: Announce(tenant, j, job, a, job.artifacts[a].item.value)
  }

  /** The message that hands a ready PDF of the job to Storage, with all it says. */
  ghost predicate HandsOver(m: Publish, tenant: Tenant, j: Guid, job: Job) {
    && m.id in job.artifacts && job.artifacts[m.id].ready && job.artifacts[m.id].item.Some?
    && m.key == BlobKey(tenant, ReportPath(j, m.id), false) && m.bytes == job.artifacts[m.id].bytes
    && m.createdBy == job.requestedBy && m.origin == "report" && m.originId == j
    && var i := job.artifacts[m.id].item.value;
       && i in job.items && m.sites == job.items[i].sites
       && m.createdAt == (if job.items[i].generatedAt.Some? then job.items[i].generatedAt.value
                          else job.artifacts[m.id].createdAt)
  }

  lemma NewlyReadyAre(tenant: Tenant, j: Guid, before: Job, job: Job)
    ensures forall m :: m in NewlyReady(tenant, j, before, job) <==>
      HandsOver(m, tenant, j, job) && !(m.id in before.artifacts && before.artifacts[m.id].ready)
  {
  }

  lemma UnacknowledgedAre(tenant: Tenant, j: Guid, job: Job)
    ensures forall m :: m in Unacknowledged(tenant, j, job) <==> HandsOver(m, tenant, j, job) && !job.artifacts[m.id].filePublished
  {
  }

  /** A rendering that succeeds is the one piece of news in its settlement, and a failed one is none. */
  lemma SettledNews(tenant: Tenant, j: Guid, p: Job, i: Guid, a: Guid, outcome: Outcome, now: Instant)
    requires i in p.items && a in p.artifacts
    ensures var news := NewlyReady(tenant, j, p, SettledJob(p, i, a, outcome, now));
      if outcome.Refused? then news == {}
      else
        !p.artifacts[a].ready && p.artifacts[a].item == Some(i) ==>
          news == {Publish(a, BlobKey(tenant, ReportPath(j, a), false), outcome.bytes, p.requestedBy, now, p.items[i].sites, "report", j)}
  {
    var q := SettledJob(p, i, a, outcome, now);
    NewlyReadyAre(tenant, j, p, q);
    hide NewlyReady;
    if outcome.Refused? {
      assert forall m :: m !in NewlyReady(tenant, j, p, q);
    } else if !p.artifacts[a].ready && p.artifacts[a].item == Some(i) {
      var m := Publish(a, BlobKey(tenant, ReportPath(j, a), false), outcome.bytes, p.requestedBy, now, p.items[i].sites, "report", j);
      assert forall n :: n in NewlyReady(tenant, j, p, q) <==> n == m;
    }
  }

  /** Storage's checks on a publication that has no row yet. */
  predicate ValidPublication(tenant: Tenant, m: Publish) {
    m.bytes > 0 && 1 <= |m.sites| <= 1000 && m.key.tenant == tenant
  }

  function PublishedRow(m: Publish): FileRow {
    FileRow(m.key, "application/pdf", m.bytes, Clean, false, None, m.createdAt, None, Distinct(m.sites),
            Some(m.origin), Some(m.originId))
  }

  /** A published file is clean, unheld and unpreviewed, and belongs to the announced sites, each once. */
  lemma PublishedIsClean(m: Publish)
    ensures var row := PublishedRow(m);
      && row.status.Clean? && !row.hold && row.preview.None? && row.key == m.key && row.maxBytes == m.bytes
      && row.contentType == "application/pdf" && row.createdAt == m.createdAt && row.deletedAt.None? && row.origin == Some(m.origin) && row.originId == Some(m.originId)
      && (forall s :: s in row.sites <==> s in m.sites)
      && (forall i, j | 0 <= i < j < |row.sites| :: row.sites[i] != row.sites[j])
  {
    DistinctKeeps(m.sites);
  }

  /** A redelivery must describe the row it finds. */
  predicate Conflicts(row: FileRow, m: Publish) {
    row.key != m.key || row.origin != Some(m.origin) || row.originId != Some(m.originId)
  }
}
