/**
 * The admission of report runs, transaction by transaction. A new run takes the
 * organization's lock, counts the open jobs, takes the quota's lock, counts the month's
 * units, checks, and commits its rows; a retry first takes its job's lock and reads the
 * job. Any number of such transactions, and everything else that ReportWorld does, may
 * interleave between those steps.
 */
module ReportAdmission {
  import opened Basics
  import opened ReportTypes
  import opened ReportRules
  import opened ReportWorld
  import opened ReportInvariant
  import opened ReportSteps
  import opened ReportRuns
  import opened ReportSafety
  import opened ReportLocks

  datatype Request =
    | NewRun(job: Guid, user: Guid, mode: Mode, sites: seq<Guid>, items: seq<Guid>)
    | Again(job: Guid, user: Guid)

  /** How far a transaction is, and so which locks it holds. */
  datatype Stage =
    | Opened | JobLocked | Checked | QueueLocked | QueueFree | QuotaLocked
    | Counted(month: int, used: nat)
    | Reserving(month: int)

  /** An open transaction; `seen` is the job a retry has read, which ReportWorld has among its open retries. */
  datatype Ticket = Ticket(request: Request, seen: Option<Job>, stage: Stage)

  datatype Desk = Desk(world: World, tickets: map<Guid, Ticket>)

  datatype Step =
    | Outside(action: Action)
    | Open(ticket: Guid, request: Request)
    | LockJob(ticket: Guid)
    | ReadJob(ticket: Guid, now: Instant)
    | LockQueue(ticket: Guid)
    | CountQueue(ticket: Guid)
    | LockQuota(ticket: Guid)
    | CountUnits(ticket: Guid, month: int)
    | Reserve(ticket: Guid)
    | Commit(ticket: Guid, at: Instant)
    | Abort(ticket: Guid)

  // ---------- locks ----------

  predicate HoldsJob(k: Ticket, j: Guid) { k.request.Again? && k.request.job == j && !k.stage.Opened? }

  predicate HoldsQueue(k: Ticket) { !k.stage.Opened? && !k.stage.JobLocked? && !k.stage.Checked? }

  predicate HoldsQuota(k: Ticket) { k.stage.QuotaLocked? || k.stage.Counted? || k.stage.Reserving? }

  predicate JobFree(tickets: map<Guid, Ticket>, j: Guid) { forall t | t in tickets :: !HoldsJob(tickets[t], j) }

  predicate QueueUnlocked(tickets: map<Guid, Ticket>) { forall t | t in tickets :: !HoldsQueue(tickets[t]) }

  predicate QuotaUnlocked(tickets: map<Guid, Ticket>) { forall t | t in tickets :: !HoldsQuota(tickets[t]) }

  /** The transaction waits for, or fails on, a job's lock that a retry holds. */
  predicate Blocked(d: Desk, a: Action) {
    exists t | t in d.tickets :: d.tickets[t].request.Again? && !d.tickets[t].stage.Opened? && Locks(d.world, a, d.tickets[t].request.job)
  }

  // ---------- the transactions ----------

  predicate WellFormed(limits: Limits, r: Request) {
    r.NewRun? ==> 1 <= |r.sites| <= SiteLimit(r.mode, limits) && |r.items| == |Groups(r.mode, r.sites)|
  }

  function Units(k: Ticket): nat {
    match k.request
    case NewRun(_, _, _, _, items) => |items|
    case Again(_, _) => if k.seen.Some? then |FailedItems(k.seen.value)| else 0
  }

  function Closed(d: Desk, t: Guid): Desk { Desk(DropRetry(d.world, t), d.tickets - {t}) }

  function MoveTo(d: Desk, t: Guid, stage: Stage): Desk
    requires t in d.tickets
  {
    d.(tickets := d.tickets[t := d.tickets[t].(stage := stage)])
  }

  /** The rows of a new run. */
  function RunInserted(w: World, at: Instant, r: Request, month: int): World
    requires r.NewRun? && |r.items| == |Groups(r.mode, r.sites)|
  {
    w.(clock := at,
    jobs := w.jobs[r.job := NewJob(r.user, r.mode, NewItems(r.items, Groups(r.mode, r.sites)), at)],
    ledger := Reserved(w.ledger, r.job, (set i | i in r.items), month),
    past := w.past.(jobs := w.past.jobs + {r.job}, itemHome := w.past.itemHome + map i | i in r.items :: r.job))
  }

  /** A retry's update: the columns it sets, from what it had read, on the rows as they are. */
  function Rewritten(row: Job, seen: Job): Job {
    row.(state := JobState.Queued,
    error := None,
    revision := seen.revision + 1,
    owner := None,
    leaseUntil := None,
    items := map i | i in row.items ::
               if i in FailedItems(seen) then row.items[i].(state := ItemState.Queued, error := None) else row.items[i])
  }

  function Retried(w: World, at: Instant, j: Guid, seen: Job, month: int): World
    requires j in w.jobs
  {
    w.(clock := at, jobs := w.jobs[j := Rewritten(w.jobs[j], seen)], ledger := Reserved(w.ledger, j, FailedItems(seen), month))
  }

  /** The revision is a concurrency token: the update of a row that has another one throws. */
  function CommittedWorld(w: World, t: Guid, k: Ticket, at: Instant): World
    requires k.stage.Reserving? && (k.request.Again? ==> k.seen.Some?)
    requires k.request.NewRun? ==> |k.request.items| == |Groups(k.request.mode, k.request.sites)|
  {
    var r := k.request;
    if r.NewRun? then
      if r.job in w.past.jobs || !FreshItems(w, r.items) then w else RunInserted(w, at, r, k.stage.month)
    else if r.job !in w.jobs || w.jobs[r.job].revision != k.seen.value.revision then DropRetry(w, t)
    else if FailedItems(k.seen.value) * w.ledger.Keys != {} then DropRetry(w, t)  // the insert would break the primary key
    else Retried(DropRetry(w, t), at, r.job, k.seen.value, k.stage.month)
  }

  /** One step of a transaction; a lock that is taken, a check that fails and a throw end it. */
  function Advanced(c: Config, quota: int -> nat, d: Desk, s: Step): Desk
    requires !s.Outside? && !s.Open? && s.ticket in d.tickets
  {
    var t, k := s.ticket, d.tickets[s.ticket];
    var r := k.request;
    match s
    case LockJob(_) =>
      if !r.Again? || !k.stage.Opened? then d
      else if JobFree(d.tickets, r.job) then MoveTo(d, t, JobLocked) else Closed(d, t)
    case ReadJob(_, now) =>
      if !k.stage.JobLocked? || !r.Again? || now < d.world.clock then d
      else if r.job !in d.world.jobs || d.world.jobs[r.job].requestedBy != r.user || !Retryable(d.world.jobs[r.job], now) then
        Closed(d, t)
      else
        Desk(ApplyReadRetry(d.world, now, t, r.job, r.user), d.tickets[t := Ticket(r, Some(d.world.jobs[r.job]), Checked)])
    case LockQueue(_) =>
      if !(if r.NewRun? then k.stage.Opened? else k.stage.Checked?) then d
      else if QueueUnlocked(d.tickets) then MoveTo(d, t, QueueLocked) else Closed(d, t)
    case CountQueue(_) =>
      if !k.stage.QueueLocked? then d
      else if ActiveJobs(d.world.jobs) >= c.limits.maxQueuedJobs then Closed(d, t) else MoveTo(d, t, QueueFree)
    case LockQuota(_) =>
      if !k.stage.QueueFree? then d
      else if QuotaUnlocked(d.tickets) then MoveTo(d, t, QuotaLocked) else Closed(d, t)
    case CountUnits(_, month) =>
      if !k.stage.QuotaLocked? then d else MoveTo(d, t, Counted(month, UsedIn(d.world.ledger, month)))
    case Reserve(_) =>
      if !k.stage.Counted? then d
      else if Units(k) != 0 && k.stage.used + Units(k) > quota(k.stage.month) then Closed(d, t)
      else MoveTo(d, t, Reserving(k.stage.month))
    case Commit(_, at) =>
      if !k.stage.Reserving? || at < d.world.clock || (r.Again? && k.seen.None?) || !WellFormed(c.limits, r) then d
      else Desk(CommittedWorld(d.world, t, k, at), d.tickets - {t})
    case Abort(_) => Closed(d, t)
  }

  /** Everything but admission. */
  predicate Foreign(a: Action) { !a.Submit? && !a.ReadRetry? && !a.Retry? && !a.AbortRetry? }

  function Next(c: Config, quota: int -> nat, d: Desk, s: Step): Desk {
    match s
    case Outside(a) => if !Foreign(a) || Blocked(d, a) then d else d.(world := ReportWorld.Next(c, d.world, a))
    case Open(t, r) =>
      if t in d.tickets || !WellFormed(c.limits, r) then d else d.(tickets := d.tickets[t := Ticket(r, None, Opened)])
    case _ => if s.ticket in d.tickets then Advanced(c, quota, d, s) else d
  }

  function Run(c: Config, quota: int -> nat, steps: seq<Step>): Desk
    decreases |steps|
  {
    if steps == [] then Desk(Genesis, map[]) else Next(c, quota, Run(c, quota, steps[..|steps| - 1]), steps[|steps| - 1])
  }

  // ---------- the invariant ----------

  /** Under its lock the job can only have got marks or lost artifacts, been purged, or gone. */
  ghost predicate SeenFits(w: World, j: Guid, user: Guid, seen: Job) {
    && j in w.past.jobs && seen.requestedBy == user && Reopenable(seen)
    && (j in w.jobs ==> SameButArtifacts(seen, w.jobs[j]) || seen.revision < w.jobs[j].revision)
  }

  ghost predicate HasSeen(w: World, k: Ticket) {
    k.request.Again? && !k.stage.Opened? && !k.stage.JobLocked? ==>
      k.seen.Some? && SeenFits(w, k.request.job, k.request.user, k.seen.value)
  }

  /** What a transaction counted under a lock it still holds is an upper bound. */
  ghost predicate CountsFit(c: Config, quota: int -> nat, w: World, k: Ticket) {
    && (HoldsQueue(k) && !k.stage.QueueLocked? ==> |ActiveSet(w.jobs)| < c.limits.maxQueuedJobs)
    && (k.stage.Counted? ==> UsedIn(w.ledger, k.stage.month) <= k.stage.used)
    && (k.stage.Reserving? ==> Units(k) == 0 || UsedIn(w.ledger, k.stage.month) + Units(k) <= quota(k.stage.month))
  }

  /** At most one transaction holds each lock. */
  ghost predicate Exclusive(tickets: map<Guid, Ticket>) {
    && (forall t, u | t in tickets && u in tickets && HoldsQueue(tickets[t]) && HoldsQueue(tickets[u]) :: t == u)
    && (forall t, u | t in tickets && u in tickets && HoldsJob(tickets[t], tickets[t].request.job)
                      && HoldsJob(tickets[u], tickets[t].request.job) :: t == u)
  }

  ghost predicate Limited(c: Config, quota: int -> nat, w: World) {
    (forall month :: UsedIn(w.ledger, month) <= quota(month)) && |ActiveSet(w.jobs)| <= c.limits.maxQueuedJobs
  }

  ghost predicate Inv(c: Config, quota: int -> nat, d: Desk) {
    && Known(d.world) && Limited(c, quota, d.world) && Exclusive(d.tickets)
    && forall t | t in d.tickets ::
      WellFormed(c.limits, d.tickets[t].request) && HasSeen(d.world, d.tickets[t]) && CountsFit(c, quota, d.world, d.tickets[t])
  }

  // ---------- counting ----------

  lemma SubsetSize<T>(a: set<T>, b: set<T>)
    requires a <= b
    ensures |a| <= |b|
  {
    assert b == a + (b - a);
  }

  lemma {:induction false} SetOfSize(ids: seq<Guid>)
    ensures |set i | i in ids| <= |ids|
  {
    if ids == [] {
      assert (set i | i in ids) == {};
    } else {
      SetOfSize(ids[1..]);
      assert (set i | i in ids) == (set i | i in ids[1..]) + {ids[0]};
    }
  }

  lemma FewerEntries(ledger: map<Guid, Entry>, ledger': map<Guid, Entry>, month: int)
    requires NoNewEntries(ledger, ledger')
    ensures UsedIn(ledger', month) <= UsedIn(ledger, month)
  {
    var after := set i | i in ledger' && ledger'[i].month == month;
    var used := set i | i in ledger && ledger[i].month == month;
    assert forall i | i in after :: i in ledger && i in used;
    SubsetSize(after, used);
  }

  lemma ReservedCount(ledger: map<Guid, Entry>, j: Guid, ids: set<Guid>, m: int, month: int)
    ensures UsedIn(Reserved(ledger, j, ids, m), month) <= UsedIn(ledger, month) + if m == month then |ids| else 0
  {
    var used := set i | i in ledger && ledger[i].month == month;
    var after := set i | i in Reserved(ledger, j, ids, m) && Reserved(ledger, j, ids, m)[i].month == month;
    SubsetSize(after, if m == month then used + ids else used);
  }

  // ---------- one transaction's steps ----------

  /** The transactions look at jobs, ledger and ids only. */
  lemma SameWorldKeeps(c: Config, quota: int -> nat, d: Desk, w': World)
    requires Inv(c, quota, d) && w'.jobs == d.world.jobs && w'.ledger == d.world.ledger && w'.past == d.world.past
    ensures Inv(c, quota, d.(world := w'))
  {
    forall t | t in d.tickets ensures HasSeen(w', d.tickets[t]) && CountsFit(c, quota, w', d.tickets[t]) {
      assert HasSeen(d.world, d.tickets[t]) && CountsFit(c, quota, d.world, d.tickets[t]);
    }
    hide UsedIn, ActiveSet, HasSeen, CountsFit, Exclusive, WellFormed;
  }

  lemma DropFields(w: World, t: Guid)
    ensures var w' := DropRetry(w, t);
      w'.jobs == w.jobs && w'.ledger == w.ledger && w'.past == w.past && w'.clock == w.clock && w'.retries == w.retries - {t}
  {
  }

  lemma CloseKeeps(c: Config, quota: int -> nat, d: Desk, t: Guid)
    requires Inv(c, quota, d)
    ensures Inv(c, quota, Closed(d, t))
  {
    DropFields(d.world, t);
    SameWorldKeeps(c, quota, d, DropRetry(d.world, t));
    hide DropRetry, Limited, HasSeen, CountsFit, Known, WellFormed, HoldsQueue, HoldsJob;
  }

  lemma TicketKeeps(c: Config, quota: int -> nat, d: Desk, t: Guid, k: Ticket)
    requires Inv(c, quota, d) && t in d.tickets && k.request == d.tickets[t].request
    requires HasSeen(d.world, k) && CountsFit(c, quota, d.world, k)
    requires HoldsQueue(k) ==> HoldsQueue(d.tickets[t]) || QueueUnlocked(d.tickets)
    requires HoldsJob(k, k.request.job) ==> HoldsJob(d.tickets[t], k.request.job) || JobFree(d.tickets, k.request.job)
    ensures Inv(c, quota, d.(tickets := d.tickets[t := k]))
  {
    hide Limited, HasSeen, CountsFit, Known, WellFormed, HoldsQueue;
  }

  lemma ReadKeeps(c: Config, quota: int -> nat, d: Desk, t: Guid, now: Instant)
    requires Inv(c, quota, d) && t in d.tickets && d.tickets[t].stage.JobLocked? && d.tickets[t].request.Again?
    requires var r := d.tickets[t].request;
      r.job in d.world.jobs && d.world.jobs[r.job].requestedBy == r.user && Retryable(d.world.jobs[r.job], now)
    ensures var r := d.tickets[t].request;
      Inv(c, quota, Desk(ApplyReadRetry(d.world, now, t, r.job, r.user),
                         d.tickets[t := Ticket(r, Some(d.world.jobs[r.job]), Checked)]))
  {
    var r := d.tickets[t].request;
    ReadFields(d.world, now, t, r.job, r.user);
    var w' := ApplyReadRetry(d.world, now, t, r.job, r.user);
    hide ApplyReadRetry;
    SameWorldKeeps(c, quota, d, w');
    assert Known(d.world);
    var k' := Ticket(r, Some(d.world.jobs[r.job]), Checked);
    assert HasSeen(w', k') && CountsFit(c, quota, w', k');
    hide Inv, HasSeen, CountsFit;
    TicketKeeps(c, quota, d.(world := w'), t, k');
  }

  lemma JobStepKeeps(c: Config, quota: int -> nat, d: Desk, s: Step)
    requires Inv(c, quota, d) && (s.LockJob? || s.ReadJob?) && s.ticket in d.tickets
    ensures Inv(c, quota, Advanced(c, quota, d, s))
  {
    CloseKeeps(c, quota, d, s.ticket);
    hide Inv, DropRetry, ApplyReadRetry, Retryable;
    var k := d.tickets[s.ticket];
    if s.LockJob? && k.request.Again? && k.stage.Opened? && JobFree(d.tickets, k.request.job) {
      TicketKeeps(c, quota, d, s.ticket, k.(stage := JobLocked));
    }
    if s.ReadJob? && k.stage.JobLocked? && k.request.Again? && k.request.job in d.world.jobs
       && d.world.jobs[k.request.job].requestedBy == k.request.user && Retryable(d.world.jobs[k.request.job], s.now) {
      ReadKeeps(c, quota, d, s.ticket, s.now);
    }
  }

  lemma ReadFields(w: World, at: Instant, r: Guid, j: Guid, user: Guid)
    ensures var w' := ApplyReadRetry(w, at, r, j, user); w'.jobs == w.jobs && w'.ledger == w.ledger && w'.past == w.past
  {
    hide Retryable;
  }

  lemma QueueStepKeeps(c: Config, quota: int -> nat, d: Desk, s: Step)
    requires Inv(c, quota, d) && (s.LockQueue? || s.CountQueue?) && s.ticket in d.tickets
    ensures Inv(c, quota, Advanced(c, quota, d, s))
  {
    CloseKeeps(c, quota, d, s.ticket);
    var k := d.tickets[s.ticket];
    assert HasSeen(d.world, k) && ActiveJobs(d.world.jobs) == |ActiveSet(d.world.jobs)|;
    hide Inv, DropRetry, SeenFits, ActiveJobs, ActiveSet;
    if s.LockQueue? && (if k.request.NewRun? then k.stage.Opened? else k.stage.Checked?) && QueueUnlocked(d.tickets) {
      TicketKeeps(c, quota, d, s.ticket, k.(stage := QueueLocked));
    }
    if s.CountQueue? && k.stage.QueueLocked? && ActiveJobs(d.world.jobs) < c.limits.maxQueuedJobs {
      TicketKeeps(c, quota, d, s.ticket, k.(stage := QueueFree));
    }
  }

  lemma QuotaStepKeeps(c: Config, quota: int -> nat, d: Desk, s: Step)
    requires Inv(c, quota, d) && (s.LockQuota? || s.CountUnits? || s.Reserve?) && s.ticket in d.tickets
    ensures Inv(c, quota, Advanced(c, quota, d, s))
  {
    CloseKeeps(c, quota, d, s.ticket);
    var k := d.tickets[s.ticket];
    assert HasSeen(d.world, k) && CountsFit(c, quota, d.world, k);
    hide Inv, DropRetry, SeenFits, ActiveSet, UsedIn, FailedItems;
    if s.LockQuota? && k.stage.QueueFree? && QuotaUnlocked(d.tickets) {
      TicketKeeps(c, quota, d, s.ticket, k.(stage := QuotaLocked));
    }
    if s.CountUnits? && k.stage.QuotaLocked? {
      TicketKeeps(c, quota, d, s.ticket, k.(stage := Counted(s.month, UsedIn(d.world.ledger, s.month))));
    }
    if s.Reserve? && k.stage.Counted? && (Units(k) == 0 || k.stage.used + Units(k) <= quota(k.stage.month)) {
      var k' := k.(stage := Reserving(k.stage.month));
      assert Units(k') == Units(k);
      TicketKeeps(c, quota, d, s.ticket, k');
    }
  }

  lemma OpenKeeps(c: Config, quota: int -> nat, d: Desk, t: Guid, r: Request)
    requires Inv(c, quota, d) && t !in d.tickets && WellFormed(c.limits, r)
    ensures Inv(c, quota, d.(tickets := d.tickets[t := Ticket(r, None, Opened)]))
  {
    assert HasSeen(d.world, Ticket(r, None, Opened)) && CountsFit(c, quota, d.world, Ticket(r, None, Opened));
    hide Limited, HasSeen, CountsFit, Known, WellFormed;
  }

  // ---------- the commit ----------

  /** One more active job at most, and no more entries than were checked. */
  lemma OneMore(w: World, w': World, j: Guid, q: Job)
    requires w'.jobs == w.jobs[j := q]
    ensures |ActiveSet(w'.jobs)| <= |ActiveSet(w.jobs)| + 1
  {
    assert ActiveSet(w'.jobs) <= ActiveSet(w.jobs) + {j};
    SubsetSize(ActiveSet(w'.jobs), ActiveSet(w.jobs) + {j});
  }

  lemma RoomForUnits(c: Config, quota: int -> nat, w: World, j: Guid, ids: set<Guid>, month: int, n: nat)
    requires Limited(c, quota, w) && |ids| <= n && (n == 0 || UsedIn(w.ledger, month) + n <= quota(month))
    ensures forall m :: UsedIn(Reserved(w.ledger, j, ids, month), m) <= quota(m)
  {
    forall m ensures UsedIn(Reserved(w.ledger, j, ids, month), m) <= quota(m) {
      ReservedCount(w.ledger, j, ids, month, m);
    }
  }

  /** Every known job but perhaps one is as it was. */
  ghost predicate OthersSame(w: World, w': World, j: Guid) {
    forall k | k in w.past.jobs && k != j :: (k in w'.jobs <==> k in w.jobs) && (k in w'.jobs ==> w'.jobs[k] == w.jobs[k])
  }

  lemma InsertShape(w: World, at: Instant, r: Request, month: int)
    requires r.NewRun? && |r.items| == |Groups(r.mode, r.sites)|
    ensures var w' := RunInserted(w, at, r, month);
      && r.job in w'.jobs && w'.jobs == w.jobs[r.job := w'.jobs[r.job]] && w'.past.jobs == w.past.jobs + {r.job}
      && w'.ledger == Reserved(w.ledger, r.job, (set i | i in r.items), month)
  {
    hide NewItems, NewJob, Groups, Reserved;
  }

  lemma StaysLimited(c: Config, quota: int -> nat, w: World, w': World, j: Guid, ids: set<Guid>, month: int, n: nat)
    requires Limited(c, quota, w) && |ActiveSet(w.jobs)| < c.limits.maxQueuedJobs
    requires |ids| <= n && (n == 0 || UsedIn(w.ledger, month) + n <= quota(month))
    requires j in w'.jobs && w'.jobs == w.jobs[j := w'.jobs[j]] && w'.ledger == Reserved(w.ledger, j, ids, month)
    ensures Limited(c, quota, w')
  {
    hide UsedIn;
    RoomForUnits(c, quota, w, j, ids, month, n);
    hide Reserved;
    OneMore(w, w', j, w'.jobs[j]);
  }

  lemma InsertFacts(c: Config, quota: int -> nat, w: World, at: Instant, r: Request, month: int)
    requires r.NewRun? && WellFormed(c.limits, r) && Known(w) && Limited(c, quota, w)
    requires |ActiveSet(w.jobs)| < c.limits.maxQueuedJobs
    requires |r.items| == 0 || UsedIn(w.ledger, month) + |r.items| <= quota(month)
    ensures var w' := RunInserted(w, at, r, month);
      Known(w') && Limited(c, quota, w') && w.past.jobs <= w'.past.jobs && OthersSame(w, w', r.job)
  {
    var w', ids := RunInserted(w, at, r, month), set i | i in r.items;
    InsertShape(w, at, r, month);
    SetOfSize(r.items);
    hide UsedIn, Groups, RunInserted, Limited, ActiveSet, Reserved, SiteLimit;
    StaysLimited(c, quota, w, w', r.job, ids, month, |r.items|);
  }

  lemma RewriteFacts(c: Config, quota: int -> nat, w: World, at: Instant, j: Guid, seen: Job, month: int)
    requires Known(w) && Limited(c, quota, w) && j in w.jobs
    requires |ActiveSet(w.jobs)| < c.limits.maxQueuedJobs
    requires |FailedItems(seen)| == 0 || UsedIn(w.ledger, month) + |FailedItems(seen)| <= quota(month)
    ensures var w' := Retried(w, at, j, seen, month);
      Known(w') && Limited(c, quota, w') && w'.past == w.past && OthersSame(w, w', j)
  {
    hide UsedIn, Rewritten, FailedItems, Limited, ActiveSet, Reserved;
    StaysLimited(c, quota, w, Retried(w, at, j, seen, month), j, FailedItems(seen), month, |FailedItems(seen)|);
  }

  lemma SameLimits(c: Config, quota: int -> nat, w: World, w': World)
    requires Known(w) && Limited(c, quota, w) && w'.jobs == w.jobs && w'.ledger == w.ledger && w'.past == w.past
    ensures Known(w') && Limited(c, quota, w')
  {
    hide UsedIn, ActiveSet;
  }

  /** The commit stays within the limits and leaves every other known job as it was. */
  lemma CommitFacts(c: Config, quota: int -> nat, w: World, t: Guid, k: Ticket, at: Instant)
    requires Known(w) && Limited(c, quota, w) && WellFormed(c.limits, k.request) && HasSeen(w, k) && CountsFit(c, quota, w, k)
    requires k.stage.Reserving?
    ensures var w' := CommittedWorld(w, t, k, at);
      && Known(w') && Limited(c, quota, w') && w.past.jobs <= w'.past.jobs && OthersSame(w, w', k.request.job)
      && (k.request.NewRun? && k.request.job in w.past.jobs ==> w' == w)
  {
    hide UsedIn, FreshItems, FailedItems, RunInserted, Retried, Limited, Known, Groups, ActiveSet;
    var dropped := DropRetry(w, t);
    DropFields(w, t);
    SameLimits(c, quota, w, dropped);
    hide DropRetry;
    if k.request.NewRun? {
      InsertFacts(c, quota, w, at, k.request, k.stage.month);
    } else if k.request.job in w.jobs {
      RewriteFacts(c, quota, dropped, at, k.request.job, k.seen.value, k.stage.month);
    }
  }

  lemma SeenAfterCommit(c: Config, w: World, w': World, k: Ticket)
    requires HasSeen(w, k) && w.past.jobs <= w'.past.jobs
    requires k.request.job in w.past.jobs && HoldsJob(k, k.request.job) ==>
               && (k.request.job in w'.jobs <==> k.request.job in w.jobs)
               && (k.request.job in w'.jobs ==> w'.jobs[k.request.job] == w.jobs[k.request.job])
    ensures HasSeen(w', k)
  {
  }

  lemma CommitKeeps(c: Config, quota: int -> nat, d: Desk, t: Guid, at: Instant)
    requires Inv(c, quota, d) && t in d.tickets && d.tickets[t].stage.Reserving?
    ensures Inv(c, quota, Desk(CommittedWorld(d.world, t, d.tickets[t], at), d.tickets - {t}))
  {
    var k := d.tickets[t];
    CommitFacts(c, quota, d.world, t, k, at);
    var w' := CommittedWorld(d.world, t, k, at);
    hide CommittedWorld, Known, Limited;
    forall u | u in d.tickets && u != t
      ensures HasSeen(w', d.tickets[u]) && CountsFit(c, quota, w', d.tickets[u])
    {
      assert !HoldsQueue(d.tickets[u]);
      SeenAfterCommit(c, d.world, w', d.tickets[u]);
    }
    hide HasSeen, CountsFit, HoldsQueue, HoldsJob, WellFormed;
  }

  lemma AdvancedKeeps(c: Config, quota: int -> nat, d: Desk, s: Step)
    requires Inv(c, quota, d) && !s.Outside? && !s.Open? && s.ticket in d.tickets
    ensures Inv(c, quota, Advanced(c, quota, d, s))
  {
    hide Inv, CommittedWorld;
    if s.LockJob? || s.ReadJob? {
      JobStepKeeps(c, quota, d, s);
    } else if s.LockQueue? || s.CountQueue? {
      QueueStepKeeps(c, quota, d, s);
    } else if s.Commit? {
      if d.tickets[s.ticket].stage.Reserving? { CommitKeeps(c, quota, d, s.ticket, s.at); }
    } else if s.Abort? {
      CloseKeeps(c, quota, d, s.ticket);
    } else {
      QuotaStepKeeps(c, quota, d, s);
    }
  }

  // ---------- everybody else ----------

  lemma SeenStays(c: Config, w: World, a: Action, j: Guid, user: Guid, seen: Job)
    requires SeenFits(w, j, user, seen) && Known(w) && Foreign(a) && !Locks(w, a, j)
    ensures SeenFits(ReportWorld.Next(c, w, a), j, user, seen)
  {
    hide ReportWorld.Next, Locks, Changes, StaysGone, Pending;
    NextEvolves(c, w, a);
    if j in ReportWorld.Next(c, w, a).jobs { LockProtects(c, w, a, j); }
  }

  lemma LimitsStay(c: Config, quota: int -> nat, w: World, a: Action)
    requires Limited(c, quota, w) && Known(w) && Foreign(a)
    ensures var w' := ReportWorld.Next(c, w, a);
      && Limited(c, quota, w') && Known(w')
      && |ActiveSet(w'.jobs)| <= |ActiveSet(w.jobs)| && forall m :: UsedIn(w'.ledger, m) <= UsedIn(w.ledger, m)
  {
    hide ReportWorld.Next, Changes, StaysGone, Pending, UsedIn;
    var w' := ReportWorld.Next(c, w, a);
    NextEvolves(c, w, a);
    NextIsModest(c, w, a);
    SubsetSize(ActiveSet(w'.jobs), ActiveSet(w.jobs));
    forall m ensures UsedIn(w'.ledger, m) <= UsedIn(w.ledger, m) {
      FewerEntries(w.ledger, w'.ledger, m);
    }
  }

  lemma OutsideKeeps(c: Config, quota: int -> nat, d: Desk, a: Action)
    requires Inv(c, quota, d) && Foreign(a) && !Blocked(d, a)
    ensures Inv(c, quota, d.(world := ReportWorld.Next(c, d.world, a)))
  {
    var w, w' := d.world, ReportWorld.Next(c, d.world, a);
    hide ReportWorld.Next, Locks, UsedIn, ActiveSet;
    LimitsStay(c, quota, w, a);
    forall t | t in d.tickets ensures HasSeen(w', d.tickets[t]) && CountsFit(c, quota, w', d.tickets[t]) {
      var k := d.tickets[t];
      assert HasSeen(w, k) && CountsFit(c, quota, w, k);
      if k.request.Again? && !k.stage.Opened? && !k.stage.JobLocked? {
        SeenStays(c, w, a, k.request.job, k.request.user, k.seen.value);
      }
    }
    hide Limited, Known, Exclusive, HasSeen, CountsFit;
  }

  lemma NextKeeps(c: Config, quota: int -> nat, d: Desk, s: Step)
    requires Inv(c, quota, d)
    ensures Inv(c, quota, Next(c, quota, d, s))
  {
    hide Inv, Advanced, ReportWorld.Next, Blocked;
    match s {
      case Outside(a) => if Foreign(a) && !Blocked(d, a) { OutsideKeeps(c, quota, d, a); }
      case Open(t, r) => if t !in d.tickets && WellFormed(c.limits, r) { OpenKeeps(c, quota, d, t, r); }
      case _ => if s.ticket in d.tickets { AdvancedKeeps(c, quota, d, s); }
    }
  }

  lemma {:induction false} RunFits(c: Config, quota: int -> nat, steps: seq<Step>)
    ensures Inv(c, quota, Run(c, quota, steps))
    decreases |steps|
  {
    if steps == [] {
      assert ActiveSet(Genesis.jobs) == {} && forall month :: UsedIn(Genesis.ledger, month) == 0;
    } else {
      hide Inv, Next;
      RunFits(c, quota, steps[..|steps| - 1]);
      NextKeeps(c, quota, Run(c, quota, steps[..|steps| - 1]), steps[|steps| - 1]);
    }
  }

  /**
   * However new runs, retries, workers, cancellations, sweeps and purges interleave at
   * lock, count, check, insert and commit, the month's units stay within the month's quota
   * and queued and running jobs within the queue's capacity.
   */
  lemma AdmissionIsStrict(c: Config, quota: int -> nat, steps: seq<Step>, month: int)
    ensures var w := Run(c, quota, steps).world;
      && |set i | i in w.ledger && w.ledger[i].month == month| <= quota(month)
      && |set j | j in w.jobs && (w.jobs[j].state.Queued? || w.jobs[j].state.Running?)| <= c.limits.maxQueuedJobs
  {
    RunFits(c, quota, steps);
    hide Run, UsedIn;
    var w := Run(c, quota, steps).world;
    assert ActiveJobs(w.jobs) == |ActiveSet(w.jobs)|;
    ReportRules.Counted(w.jobs, w.ledger, month);
  }

  // ---------- the reads of the open retries ----------

  /** ReportWorld's open retries are the retries here that have read their job. */
  ghost predicate ReadsFit(d: Desk) {
    && (forall r | r in d.world.retries :: r in d.tickets && d.tickets[r].seen.Some?)
    && forall t | t in d.tickets && d.tickets[t].seen.Some? ::
      && t in d.world.retries
      && d.world.retries[t] == RetryRead(d.tickets[t].request.job, d.tickets[t].seen.value.revision)
      && d.tickets[t].request.Again? && !d.tickets[t].stage.Opened? && !d.tickets[t].stage.JobLocked?
  }

  lemma CloseReads(d: Desk, t: Guid)
    requires ReadsFit(d)
    ensures ReadsFit(Closed(d, t))
  {
    DropFields(d.world, t);
    hide DropRetry;
  }

  lemma ReadReads(d: Desk, t: Guid, now: Instant)
    requires ReadsFit(d) && t in d.tickets && d.tickets[t].stage.JobLocked? && d.tickets[t].request.Again?
    requires var r := d.tickets[t].request;
      r.job in d.world.jobs && d.world.jobs[r.job].requestedBy == r.user && Retryable(d.world.jobs[r.job], now)
    ensures var r := d.tickets[t].request;
      ReadsFit(Desk(ApplyReadRetry(d.world, now, t, r.job, r.user), d.tickets[t := Ticket(r, Some(d.world.jobs[r.job]), Checked)]))
  {
    hide Retryable;
  }

  lemma MoveReads(d: Desk, t: Guid, stage: Stage)
    requires ReadsFit(d) && t in d.tickets && !stage.Opened?
    requires d.tickets[t].seen.Some? ==> !stage.JobLocked?
    ensures ReadsFit(MoveTo(d, t, stage))
  {
  }

  lemma CommitReads(d: Desk, t: Guid, at: Instant)
    requires ReadsFit(d) && t in d.tickets && d.tickets[t].stage.Reserving?
    requires d.tickets[t].request.Again? ==> d.tickets[t].seen.Some?
    requires d.tickets[t].request.NewRun? ==>
               |d.tickets[t].request.items| == |Groups(d.tickets[t].request.mode, d.tickets[t].request.sites)|
    ensures ReadsFit(Desk(CommittedWorld(d.world, t, d.tickets[t], at), d.tickets - {t}))
  {
    CommitRetries(d.world, t, d.tickets[t], at);
    hide CommittedWorld;
  }

  lemma InsertedRetries(w: World, at: Instant, r: Request, month: int)
    requires r.NewRun? && |r.items| == |Groups(r.mode, r.sites)|
    ensures RunInserted(w, at, r, month).retries == w.retries
  {
    hide NewItems, NewJob, Groups, Reserved;
  }

  lemma RetriedRetries(w: World, at: Instant, j: Guid, seen: Job, month: int)
    requires j in w.jobs
    ensures Retried(w, at, j, seen, month).retries == w.retries
  {
    hide Rewritten, Reserved, FailedItems;
  }

  lemma CommitRetries(w: World, t: Guid, k: Ticket, at: Instant)
    requires k.stage.Reserving? && (k.request.Again? ==> k.seen.Some?)
    requires k.request.NewRun? ==> |k.request.items| == |Groups(k.request.mode, k.request.sites)|
    ensures CommittedWorld(w, t, k, at).retries == if k.request.NewRun? then w.retries else w.retries - {t}
  {
    DropFields(w, t);
    hide FreshItems, FailedItems, RunInserted, Retried, Groups, DropRetry;
    if k.request.NewRun? {
      InsertedRetries(w, at, k.request, k.stage.month);
    } else if k.request.job in w.jobs {
      RetriedRetries(DropRetry(w, t), at, k.request.job, k.seen.value, k.stage.month);
    }
  }

  lemma AdvancedReads(c: Config, quota: int -> nat, d: Desk, s: Step)
    requires ReadsFit(d) && !s.Outside? && !s.Open? && s.ticket in d.tickets
    ensures ReadsFit(Advanced(c, quota, d, s))
  {
    var t, k := s.ticket, d.tickets[s.ticket];
    CloseReads(d, t);
    assert k.seen.Some? ==> !k.stage.Opened? && !k.stage.JobLocked?;
    hide ReadsFit, Closed, MoveTo, CommittedWorld, ApplyReadRetry, Retryable, UsedIn, ActiveJobs, FailedItems, SiteLimit, Groups;
    match s {
      case LockJob(_) => if k.stage.Opened? { MoveReads(d, t, JobLocked); }
      case ReadJob(_, now) =>
        if k.stage.JobLocked? && k.request.Again? && k.request.job in d.world.jobs
           && d.world.jobs[k.request.job].requestedBy == k.request.user && Retryable(d.world.jobs[k.request.job], now) {
          ReadReads(d, t, now);
        }
      case LockQueue(_) => MoveReads(d, t, QueueLocked);
      case CountQueue(_) => MoveReads(d, t, QueueFree);
      case LockQuota(_) => MoveReads(d, t, QuotaLocked);
      case CountUnits(_, month) => MoveReads(d, t, Counted(month, UsedIn(d.world.ledger, month)));
      case Reserve(_) => if k.stage.Counted? { MoveReads(d, t, Reserving(k.stage.month)); }
      case Commit(_, at) =>
        if k.stage.Reserving? && !(k.request.Again? && k.seen.None?) && WellFormed(c.limits, k.request) { CommitReads(d, t, at); }
      case Abort(_) =>
    }
  }

  lemma NextReads(c: Config, quota: int -> nat, d: Desk, s: Step)
    requires ReadsFit(d)
    ensures ReadsFit(Next(c, quota, d, s))
  {
    match s {
      case Outside(a) =>
        if Foreign(a) {
          NextKeepsRetries(c, d.world, a);
          hide ReportWorld.Next, Blocked;
        }
      case Open(t, r) =>
      case _ =>
        if s.ticket in d.tickets {
          hide Advanced, ReadsFit;
          AdvancedReads(c, quota, d, s);
        }
    }
  }

  lemma {:induction false} RunReads(c: Config, quota: int -> nat, steps: seq<Step>)
    ensures ReadsFit(Run(c, quota, steps))
    decreases |steps|
  {
    if steps != [] {
      hide ReadsFit, Next;
      RunReads(c, quota, steps[..|steps| - 1]);
      NextReads(c, quota, Run(c, quota, steps[..|steps| - 1]), steps[|steps| - 1]);
    }
  }

  // ---------- the transactions are as good as atomic ----------

  /** The step of ReportWorld that a transaction's commit stands for. */
  function AsAction(quota: int -> nat, t: Guid, k: Ticket, at: Instant): Action
    requires k.stage.Reserving?
  {
    var month := k.stage.month;
    match k.request
    case NewRun(j, user, mode, sites, items) => Submit(at, j, user, mode, sites, items, month, quota(month))
    case Again(_, _) => Retry(at, t, month, quota(month))
  }

  lemma NewRunIsSubmit(c: Config, quota: int -> nat, w: World, t: Guid, k: Ticket, at: Instant)
    requires k.request.NewRun? && k.stage.Reserving? && WellFormed(c.limits, k.request) && CountsFit(c, quota, w, k)
    ensures CommittedWorld(w, t, k, at)
         == ApplySubmit(c, w, at, k.request.job, k.request.user, k.request.mode, k.request.sites, k.request.items,
                        k.stage.month, quota(k.stage.month))
  {
    assert ActiveJobs(w.jobs) == |ActiveSet(w.jobs)|;
    hide ActiveJobs, ActiveSet, UsedIn, FreshItems, NewItems, NewJob, Reserved, SiteLimit;
  }

  lemma RewrittenIsRetried(row: Job, seen: Job)
    requires SameButArtifacts(seen, row)
    ensures Rewritten(row, seen) == RetriedJob(row) && FailedItems(seen) == FailedItems(row)
  {
    var p, q := Rewritten(row, seen).items, RetriedJob(row).items;
    assert seen.items == row.items;
    forall i | i in row.items ensures p[i] == q[i] {
      assert i in FailedItems(seen) <==> row.items[i].state.Failed?;
    }
    assert p.Keys == q.Keys;
    assert p == q;
  }

  lemma AgainIsRetry(c: Config, quota: int -> nat, w: World, t: Guid, k: Ticket, at: Instant)
    requires k.request.Again? && k.stage.Reserving? && HasSeen(w, k) && CountsFit(c, quota, w, k)
    requires t in w.retries && w.retries[t] == RetryRead(k.request.job, k.seen.value.revision)
    ensures ApplyRetry(c, w, at, t, k.stage.month, quota(k.stage.month)) == CommittedWorld(w, t, k, at)
  {
    assert ActiveJobs(w.jobs) == |ActiveSet(w.jobs)|;
    var j := k.request.job;
    if j in w.jobs && w.jobs[j].revision == k.seen.value.revision { RewrittenIsRetried(w.jobs[j], k.seen.value); }
    NoFailedNoUnits(k.seen.value);
    DropFields(w, t);
    hide ActiveJobs, ActiveSet, UsedIn, FailedItems, Reserved, Rewritten, RetriedJob, DropRetry;
  }

  lemma NoFailedNoUnits(seen: Job)
    ensures |FailedItems(seen)| == 0 <==> FailedItems(seen) == {}
  {
  }

  /** The whole of an admission could as well happen at its commit: it is the Submit or the Retry of ReportWorld. */
  lemma CommitIsAtomic(c: Config, quota: int -> nat, steps: seq<Step>, t: Guid, at: Instant)
    requires var d := Run(c, quota, steps); t in d.tickets && d.tickets[t].stage.Reserving? && d.world.clock <= at
    ensures var d := Run(c, quota, steps);
      Next(c, quota, d, Commit(t, at)).world == ReportWorld.Next(c, d.world, AsAction(quota, t, d.tickets[t], at))
  {
    RunFits(c, quota, steps);
    RunReads(c, quota, steps);
    var d := Run(c, quota, steps);
    hide Run;
    CommitActs(c, quota, d, t, at);
  }

  lemma CommitActs(c: Config, quota: int -> nat, d: Desk, t: Guid, at: Instant)
    requires Inv(c, quota, d) && ReadsFit(d) && t in d.tickets && d.tickets[t].stage.Reserving? && d.world.clock <= at
    ensures Next(c, quota, d, Commit(t, at)).world == ReportWorld.Next(c, d.world, AsAction(quota, t, d.tickets[t], at))
  {
    var k, w := d.tickets[t], d.world;
    assert HasSeen(w, k) && CountsFit(c, quota, w, k) && WellFormed(c.limits, k.request);
    hide Inv, CountsFit, SeenFits, CommittedWorld, ApplySubmit, ApplyRetry, SiteLimit, Groups;
    if k.request.NewRun? { NewRunIsSubmit(c, quota, w, t, k, at); } else { AgainIsRetry(c, quota, w, t, k, at); }
  }

  /** Whatever a transaction does short of its commit, ReportWorld does too: it reads, drops a retry, or nothing happens. */
  lemma AdvanceActs(c: Config, quota: int -> nat, d: Desk, s: Step)
    requires !s.Outside? && !s.Open? && !s.Commit? && s.ticket in d.tickets
    ensures var w, w', r := d.world, Advanced(c, quota, d, s).world, d.tickets[s.ticket].request;
      || w' == w || w' == ReportWorld.Next(c, w, AbortRetry(s.ticket))
      || (s.ReadJob? && w' == ReportWorld.Next(c, w, ReadRetry(s.now, s.ticket, r.job, r.user)))
  {
    hide UsedIn, ActiveJobs, FailedItems, ApplyReadRetry, DropRetry, Retryable, JobFree, QueueUnlocked, QuotaUnlocked;
  }

  lemma StepIsReachable(c: Config, quota: int -> nat, d: Desk, s: Step)
    requires Reachable(c, d.world) && Inv(c, quota, d) && ReadsFit(d)
    ensures Reachable(c, Next(c, quota, d, s).world)
  {
    hide Reachable, Inv, ReadsFit, ReportWorld.Next, Advanced, Blocked, Foreign, WellFormed;
    if s.Outside? {
      ReachableNext(c, d.world, s.action);
    } else if s.Open? || s.ticket !in d.tickets {
    } else if s.Commit? {
      CommitIsReachable(c, quota, d, s.ticket, s.at);
    } else {
      AdvanceActs(c, quota, d, s);
      var r := d.tickets[s.ticket].request;
      ReachableNext(c, d.world, AbortRetry(s.ticket));
      if s.ReadJob? { ReachableNext(c, d.world, ReadRetry(s.now, s.ticket, r.job, r.user)); }
    }
  }

  lemma CommitIsReachable(c: Config, quota: int -> nat, d: Desk, t: Guid, at: Instant)
    requires Reachable(c, d.world) && Inv(c, quota, d) && ReadsFit(d) && t in d.tickets
    ensures Reachable(c, Next(c, quota, d, Commit(t, at)).world)
  {
    if d.tickets[t].stage.Reserving? && d.world.clock <= at {
      CommitActs(c, quota, d, t, at);
      ReachableNext(c, d.world, AsAction(quota, t, d.tickets[t], at));
      hide Next;
    }
    hide Reachable, Inv, ReadsFit, CommittedWorld, WellFormed;
  }

  /**
   * So whatever ReportRuns, ReportSafety, ReportBytes and ReportLocks prove of every
   * reachable world holds however admissions interleave, late retries included.
   */
  lemma {:induction false} InterleavingIsReachable(c: Config, quota: int -> nat, steps: seq<Step>)
    ensures Reachable(c, Run(c, quota, steps).world)
    decreases |steps|
  {
    if steps == [] {
      assert Exec(c, Genesis, []) == Genesis;
    } else {
      var before := steps[..|steps| - 1];
      hide Reachable, Next, Inv, ReadsFit;
      InterleavingIsReachable(c, quota, before);
      RunFits(c, quota, before);
      RunReads(c, quota, before);
      StepIsReachable(c, quota, Run(c, quota, before), steps[|steps| - 1]);
    }
  }

  /** A run whose expiry has passed is never claimed again, also if a late retry has reopened it. */
  lemma ExpiredNeverRuns(c: Config, w: World, run: seq<Action>, j: Guid, later: Instant, id: Guid)
    requires Known(w) && j in w.jobs && Due(w.jobs[j].expiresAt, w.clock) && later >= Exec(c, w, run).clock
    ensures ApplyClaim(c, Exec(c, w, run), later, j, id) == Exec(c, w, run)
  {
    RunEvolves(c, w, run, j);
    hide Exec, ReportWorld.Commit, Claimed;
  }

  // ---------- a transaction that nobody disturbs ----------

  /** The desk while transaction `t` stands as `k` beside the tickets of `d`. */
  function Held(d: Desk, t: Guid, k: Ticket): Desk { d.(tickets := d.tickets[t := k]) }

  lemma HeldMoves(d: Desk, t: Guid, k: Ticket, stage: Stage)
    requires t !in d.tickets
    ensures MoveTo(Held(d, t, k), t, stage) == Held(d, t, k.(stage := stage))
    ensures Closed(Held(d, t, k), t) == d.(world := DropRetry(d.world, t))
  {
    assert d.tickets[t := k][t := k.(stage := stage)] == d.tickets[t := k.(stage := stage)];
    assert d.tickets[t := k] - {t} == d.tickets;
  }

  lemma HeldLocks(d: Desk, t: Guid, k: Ticket)
    requires t !in d.tickets && QueueUnlocked(d.tickets) && QuotaUnlocked(d.tickets)
    ensures !HoldsQueue(k) ==> QueueUnlocked(Held(d, t, k).tickets)
    ensures !HoldsQuota(k) ==> QuotaUnlocked(Held(d, t, k).tickets)
  {
  }

  /** From the queue's lock to the check of the quota. */
  ghost function AloneChecked(c: Config, quota: int -> nat, d: Desk, t: Guid, month: int): Desk {
    Next(c, quota, Next(c, quota, Next(c, quota, Next(c, quota, Next(c, quota, d, LockQueue(t)), CountQueue(t)), LockQuota(t)),
                        CountUnits(t, month)), Reserve(t))
  }

  lemma AloneQueues(c: Config, quota: int -> nat, d: Desk, t: Guid, k: Ticket)
    requires t !in d.tickets && QueueUnlocked(d.tickets) && QuotaUnlocked(d.tickets)
    requires if k.request.NewRun? then k.stage.Opened? else k.stage.Checked?
    ensures Next(c, quota, Next(c, quota, Held(d, t, k), LockQueue(t)), CountQueue(t))
         == if ActiveJobs(d.world.jobs) < c.limits.maxQueuedJobs then Held(d, t, k.(stage := QueueFree))
            else d.(world := DropRetry(d.world, t))
  {
    HeldLocks(d, t, k);
    HeldMoves(d, t, k, QueueLocked);
    HeldMoves(d, t, k.(stage := QueueLocked), QueueFree);
    hide MoveTo, Closed, ActiveJobs, QueueUnlocked, QuotaUnlocked;
  }

  lemma AloneQuotas(c: Config, quota: int -> nat, d: Desk, t: Guid, k: Ticket, month: int)
    requires t !in d.tickets && QueueUnlocked(d.tickets) && QuotaUnlocked(d.tickets) && k.stage.QueueFree?
    ensures Next(c, quota, Next(c, quota, Held(d, t, k), LockQuota(t)), CountUnits(t, month))
         == Held(d, t, k.(stage := Counted(month, UsedIn(d.world.ledger, month))))
  {
    HeldLocks(d, t, k);
    HeldMoves(d, t, k, QuotaLocked);
    HeldMoves(d, t, k.(stage := QuotaLocked), Counted(month, UsedIn(d.world.ledger, month)));
    hide MoveTo, Closed, UsedIn, QueueUnlocked, QuotaUnlocked;
  }

  lemma AloneReserves(c: Config, quota: int -> nat, d: Desk, t: Guid, k: Ticket)
    requires t !in d.tickets && k.stage.Counted?
    ensures Next(c, quota, Held(d, t, k), Reserve(t))
         == if Units(k) == 0 || k.stage.used + Units(k) <= quota(k.stage.month) then Held(d, t, k.(stage := Reserving(k.stage.month)))
            else d.(world := DropRetry(d.world, t))
  {
    HeldMoves(d, t, k, Reserving(k.stage.month));
    hide MoveTo, Closed, FailedItems;
  }

  lemma NobodySteps(c: Config, quota: int -> nat, d: Desk, s: Step)
    requires !s.Outside? && !s.Open? && s.ticket !in d.tickets
    ensures Next(c, quota, d, s) == d
  {
  }

  ghost predicate RoomFor(c: Config, quota: int -> nat, w: World, units: nat, month: int) {
    ActiveJobs(w.jobs) < c.limits.maxQueuedJobs && (units == 0 || UsedIn(w.ledger, month) + units <= quota(month))
  }

  lemma AloneChecks(c: Config, quota: int -> nat, d: Desk, t: Guid, k: Ticket, month: int)
    requires t !in d.tickets && QueueUnlocked(d.tickets) && QuotaUnlocked(d.tickets)
    requires if k.request.NewRun? then k.stage.Opened? else k.stage.Checked?
    ensures AloneChecked(c, quota, Held(d, t, k), t, month)
         == if RoomFor(c, quota, d.world, Units(k), month) then Held(d, t, k.(stage := Reserving(month)))
            else d.(world := DropRetry(d.world, t))
  {
    var free := k.(stage := QueueFree);
    var counted := k.(stage := Counted(month, UsedIn(d.world.ledger, month)));
    assert Units(counted) == Units(k);
    hide Next, Held, ActiveJobs, UsedIn, Units, DropRetry, QueueUnlocked, QuotaUnlocked;
    AloneQueues(c, quota, d, t, k);
    if ActiveJobs(d.world.jobs) < c.limits.maxQueuedJobs {
      AloneQuotas(c, quota, d, t, free, month);
      AloneReserves(c, quota, d, t, counted);
    } else {
      var shut := d.(world := DropRetry(d.world, t));
      NobodySteps(c, quota, shut, LockQuota(t));
      NobodySteps(c, quota, shut, CountUnits(t, month));
      NobodySteps(c, quota, shut, Reserve(t));
    }
  }

  lemma AloneCommits(c: Config, quota: int -> nat, d: Desk, t: Guid, k: Ticket, at: Instant)
    requires t !in d.tickets && k.stage.Reserving? && d.world.clock <= at && WellFormed(c.limits, k.request)
    requires k.request.Again? ==> k.seen.Some?
    ensures Next(c, quota, Held(d, t, k), Commit(t, at)) == d.(world := CommittedWorld(d.world, t, k, at))
  {
    assert d.tickets[t := k] - {t} == d.tickets;
    hide CommittedWorld, SiteLimit, Groups, Closed, MoveTo, Units, Retryable;
  }

  lemma UnreadDrops(w: World, t: Guid)
    requires t !in w.retries
    ensures DropRetry(w, t) == w
  {
    assert w.retries - {t} == w.retries;
  }

  lemma SubmitNeedsRoom(c: Config, quota: int -> nat, w: World, at: Instant, r: Request, month: int)
    requires r.NewRun? && WellFormed(c.limits, r) && !RoomFor(c, quota, w, |r.items|, month)
    ensures ApplySubmit(c, w, at, r.job, r.user, r.mode, r.sites, r.items, month, quota(month)) == w
  {
    hide ActiveJobs, UsedIn, NewItems, NewJob, Reserved, FreshItems, SiteLimit;
  }

  lemma SubmitActs(c: Config, w: World, at: Instant, r: Request, month: int, quota: int)
    requires r.NewRun? && w.clock <= at
    ensures ReportWorld.Next(c, w, Submit(at, r.job, r.user, r.mode, r.sites, r.items, month, quota))
         == ApplySubmit(c, w, at, r.job, r.user, r.mode, r.sites, r.items, month, quota)
  {
    hide ApplySubmit;
  }

  /**
   * A new run that nobody disturbs, taken apart into all its steps, does what the Submit of
   * ReportWorld does: it is admitted if that is.
   */
  lemma LoneRunIsSubmit(c: Config, quota: int -> nat, d: Desk, t: Guid, r: Request, month: int, at: Instant)
    requires r.NewRun? && WellFormed(c.limits, r) && d.world.clock <= at
    requires t !in d.tickets && t !in d.world.retries && QueueUnlocked(d.tickets) && QuotaUnlocked(d.tickets)
    ensures var d' := Next(c, quota, AloneChecked(c, quota, Next(c, quota, d, Open(t, r)), t, month), Commit(t, at));
      && d'.tickets == d.tickets
      && d'.world == ReportWorld.Next(c, d.world, Submit(at, r.job, r.user, r.mode, r.sites, r.items, month, quota(month)))
  {
    var k := Ticket(r, None, Opened);
    assert Next(c, quota, d, Open(t, r)) == Held(d, t, k) && Units(k) == |r.items|;
    var last := k.(stage := Reserving(month));
    assert RoomFor(c, quota, d.world, Units(k), month) ==> CountsFit(c, quota, d.world, last) by {
      assert ActiveJobs(d.world.jobs) == |ActiveSet(d.world.jobs)|;
    }
    hide Next, Held, AloneChecked, RoomFor, CountsFit, ApplySubmit, CommittedWorld, DropRetry, ReportWorld.Next, Groups, SiteLimit;
    AloneChecks(c, quota, d, t, k, month);
    SubmitActs(c, d.world, at, r, month, quota(month));
    UnreadDrops(d.world, t);
    if RoomFor(c, quota, d.world, |r.items|, month) {
      AloneCommits(c, quota, d, t, last, at);
      NewRunIsSubmit(c, quota, d.world, t, last, at);
    } else {
      NobodySteps(c, quota, d, Commit(t, at));
      SubmitNeedsRoom(c, quota, d.world, at, r, month);
    }
  }

  /** From the opening of a retry to its read of the job. */
  ghost function AloneRead(c: Config, quota: int -> nat, d: Desk, t: Guid, r: Request, now: Instant): Desk {
    Next(c, quota, Next(c, quota, Next(c, quota, d, Open(t, r)), LockJob(t)), ReadJob(t, now))
  }

  lemma AloneReads(c: Config, quota: int -> nat, d: Desk, t: Guid, r: Request, now: Instant)
    requires r.Again? && d.world.clock <= now && t !in d.tickets && JobFree(d.tickets, r.job)
    ensures var w := d.world;
      AloneRead(c, quota, d, t, r, now)
      == if r.job in w.jobs && w.jobs[r.job].requestedBy == r.user && Retryable(w.jobs[r.job], now)
         then Held(d.(world := ApplyReadRetry(w, now, t, r.job, r.user)), t, Ticket(r, Some(w.jobs[r.job]), Checked))
         else d.(world := DropRetry(w, t))
  {
    var k := Ticket(r, None, Opened);
    assert Next(c, quota, d, Open(t, r)) == Held(d, t, k);
    assert JobFree(Held(d, t, k).tickets, r.job);
    HeldMoves(d, t, k, JobLocked);
    var locked := k.(stage := JobLocked);
    HeldMoves(d, t, locked, Checked);
    hide MoveTo, Closed, JobFree, Retryable, ApplyReadRetry, DropRetry;
    assert Next(c, quota, Held(d, t, k), LockJob(t)) == Held(d, t, locked);
    if r.job in d.world.jobs {
      var read := Ticket(r, Some(d.world.jobs[r.job]), Checked);
      assert d.tickets[t := locked][t := read] == d.tickets[t := read];
    }
  }

  lemma RetryNeedsRoom(c: Config, quota: int -> nat, w: World, at: Instant, t: Guid, month: int)
    requires t in w.retries
    requires w.retries[t].job in w.jobs ==> !RoomFor(c, quota, w, |FailedItems(w.jobs[w.retries[t].job])|, month)
    ensures ApplyRetry(c, w, at, t, month, quota(month)) == DropRetry(w, t)
  {
    if w.retries[t].job in w.jobs { NoFailedNoUnits(w.jobs[w.retries[t].job]); }
    hide ActiveJobs, UsedIn, FailedItems, Reserved, RetriedJob, DropRetry, Reopenable;
  }

  lemma RetryActs(c: Config, w: World, at: Instant, t: Guid, month: int, quota: int)
    requires w.clock <= at
    ensures ReportWorld.Next(c, w, Retry(at, t, month, quota)) == ApplyRetry(c, w, at, t, month, quota)
  {
    hide ApplyRetry;
  }

  lemma ReadActs(c: Config, w: World, now: Instant, t: Guid, j: Guid, user: Guid)
    requires w.clock <= now && t !in w.retries
    ensures ReportWorld.Next(c, w, ReadRetry(now, t, j, user)) == ApplyReadRetry(w, now, t, j, user)
    ensures var w' := ApplyReadRetry(w, now, t, j, user);
      && w'.jobs == w.jobs && w'.ledger == w.ledger && w'.past == w.past
      && if j in w.jobs && w.jobs[j].requestedBy == user && Retryable(w.jobs[j], now)
         then w'.clock == now && t in w'.retries && w'.retries[t] == RetryRead(j, w.jobs[j].revision)
         else w' == w
  {
    hide Retryable;
  }

  lemma UnreadRetries(c: Config, w: World, at: Instant, t: Guid, month: int, quota: int)
    requires t !in w.retries
    ensures ApplyRetry(c, w, at, t, month, quota) == w
  {
  }

  /** The same of a retry: it does what the ReadRetry and the Retry of ReportWorld do. */
  lemma LoneRetryIsRetry(c: Config, quota: int -> nat, d: Desk, t: Guid, r: Request, now: Instant, month: int, at: Instant)
    requires r.Again? && d.world.clock <= now <= at && Known(d.world)
    requires t !in d.tickets && t !in d.world.retries
    requires JobFree(d.tickets, r.job) && QueueUnlocked(d.tickets) && QuotaUnlocked(d.tickets)
    ensures var d' := Next(c, quota, AloneChecked(c, quota, AloneRead(c, quota, d, t, r, now), t, month), Commit(t, at));
      && d'.tickets == d.tickets
      && d'.world == ReportWorld.Next(c, ReportWorld.Next(c, d.world, ReadRetry(now, t, r.job, r.user)),
                                      Retry(at, t, month, quota(month)))
  {
    var w := d.world;
    var w1 := ApplyReadRetry(w, now, t, r.job, r.user);
    AloneReads(c, quota, d, t, r, now);
    ReadActs(c, w, now, t, r.job, r.user);
    UnreadDrops(w, t);
    hide Next, Held, AloneChecked, AloneRead, ApplyReadRetry, ApplyRetry, CommittedWorld, DropRetry, ReportWorld.Next, JobFree,
      QueueUnlocked, QuotaUnlocked, Known;
    RetryActs(c, w1, at, t, month, quota(month));
    if r.job in w.jobs && w.jobs[r.job].requestedBy == r.user && Retryable(w.jobs[r.job], now) {
      LoneReadCommits(c, quota, d, t, r, w1, month, at);
    } else {
      AloneIdles(c, quota, d, t, month, at);
      UnreadRetries(c, w, at, t, month, quota(month));
    }
  }

  lemma AloneIdles(c: Config, quota: int -> nat, d: Desk, t: Guid, month: int, at: Instant)
    requires t !in d.tickets
    ensures AloneChecked(c, quota, d, t, month) == d && Next(c, quota, d, Commit(t, at)) == d
  {
    NobodySteps(c, quota, d, LockQueue(t));
    NobodySteps(c, quota, d, CountQueue(t));
    NobodySteps(c, quota, d, LockQuota(t));
    NobodySteps(c, quota, d, CountUnits(t, month));
    NobodySteps(c, quota, d, Reserve(t));
    NobodySteps(c, quota, d, Commit(t, at));
    hide Next;
  }

  lemma LoneReadCommits(c: Config, quota: int -> nat, d: Desk, t: Guid, r: Request, w1: World, month: int, at: Instant)
    requires r.Again? && t !in d.tickets && QueueUnlocked(d.tickets) && QuotaUnlocked(d.tickets)
    requires r.job in w1.jobs && r.job in w1.past.jobs && w1.jobs[r.job].requestedBy == r.user && Reopenable(w1.jobs[r.job])
    requires w1.clock <= at && t in w1.retries && w1.retries[t] == RetryRead(r.job, w1.jobs[r.job].revision)
    ensures var k := Ticket(r, Some(w1.jobs[r.job]), Checked);
      Next(c, quota, AloneChecked(c, quota, Held(d.(world := w1), t, k), t, month), Commit(t, at))
      == d.(world := ApplyRetry(c, w1, at, t, month, quota(month)))
  {
    var seen := w1.jobs[r.job];
    var k, last := Ticket(r, Some(seen), Checked), Ticket(r, Some(seen), Reserving(month));
    var d1 := d.(world := w1);
    assert Units(k) == Units(last) == |FailedItems(seen)|;
    assert HasSeen(w1, last);
    assert RoomFor(c, quota, w1, Units(k), month) ==> CountsFit(c, quota, w1, last) by {
      assert ActiveJobs(w1.jobs) == |ActiveSet(w1.jobs)|;
    }
    assert WellFormed(c.limits, r);
    hide Next, Held, AloneChecked, RoomFor, CountsFit, HasSeen, ApplyRetry, CommittedWorld, DropRetry, WellFormed, QueueUnlocked, QuotaUnlocked,
      FailedItems;
    AloneChecks(c, quota, d1, t, k, month);
    if RoomFor(c, quota, w1, Units(k), month) {
      AloneCommits(c, quota, d1, t, last, at);
      AgainIsRetry(c, quota, w1, t, last, at);
    } else {
      RetryNeedsRoom(c, quota, w1, at, t, month);
      NobodySteps(c, quota, d.(world := DropRetry(w1, t)), Commit(t, at));
    }
  }
}
