/** Metered usage: an event log, folded month by month into rollups that must not show. */
module Metering {
  import opened Basics

  datatype Event = Event(code: string, amount: int, at: Instant)

  datatype Rollup = Rollup(amount: int, through: Instant)

  /** A code and a month: the key of a rollup. */
  datatype Period = Period(code: string, month: int)

  /** UTC months: `start(m)` is the first instant of month m, and `month(t)` the month of t. */
  datatype Calendar = Calendar(month: Instant -> int, start: int -> Instant)

  ghost predicate Consistent(cal: Calendar) {
    forall t, m :: cal.start(m) <= t <==> m <= cal.month(t)
  }

  // ---------- sums over events ----------

  function Sum(events: seq<Event>, p: Event -> bool): int {
    if events == [] then 0
    else
      var n := |events| - 1;
      Sum(events[..n], p) + if p(events[n]) then events[n].amount else 0
  }

  function InPeriod(cal: Calendar, period: Period): Event -> bool {
    (e: Event) => e.code == period.code && cal.month(e.at) == period.month
  }

  function Since(code: string, from: Instant): Event -> bool {
    (e: Event) => e.code == code && e.at >= from
  }

  lemma {:induction false} SumSame(events: seq<Event>, p: Event -> bool, q: Event -> bool)
    requires forall e | e in events :: p(e) <==> q(e)
    ensures Sum(events, p) == Sum(events, q)
  {
    if events != [] { SumSame(events[..|events| - 1], p, q); }
  }

  lemma {:induction false} SumNone(events: seq<Event>, p: Event -> bool)
    requires forall e | e in events :: !p(e)
    ensures Sum(events, p) == 0
  {
    if events != [] { SumNone(events[..|events| - 1], p); }
  }

  // ---------- compaction ----------

  function Newer(events: seq<Event>, cutoff: Instant): seq<Event> {
    if events == [] then []
    else
      var n := |events| - 1;
      Newer(events[..n], cutoff) + if events[n].at < cutoff then [] else [events[n]]
  }

  function OldIn(cal: Calendar, period: Period, cutoff: Instant): Event -> bool {
    (e: Event) => InPeriod(cal, period)(e) && e.at < cutoff
  }

  /** The periods that have events to fold. */
  function Groups(cal: Calendar, events: seq<Event>, cutoff: Instant): set<Period> {
    set i | 0 <= i < |events| && events[i].at < cutoff :: Period(events[i].code, cal.month(events[i].at))
  }

  function Rolled(rollups: map<Period, Rollup>, period: Period): int {
    if period in rollups then rollups[period].amount else 0
  }

  function Compacted(cal: Calendar, rollups: map<Period, Rollup>, events: seq<Event>, cutoff: Instant): map<Period, Rollup> {
    var groups := Groups(cal, events, cutoff);
    map period | period in rollups.Keys + groups ::
      if period in groups then WithOld(cal, rollups, events, period, cutoff) else rollups[period]
  }

  function WithOld(cal: Calendar, rollups: map<Period, Rollup>, events: seq<Event>, period: Period, cutoff: Instant): Rollup {
    Rollup(Rolled(rollups, period) + Sum(events, OldIn(cal, period, cutoff)), cutoff)
  }

  lemma {:induction false} NewerFacts(events: seq<Event>, cutoff: Instant)
    ensures forall e :: e in Newer(events, cutoff) <==> e in events && e.at >= cutoff
  {
    if events != [] {
      var n := |events| - 1;
      NewerFacts(events[..n], cutoff);
      assert events == events[..n] + [events[n]];
    }
  }

  lemma {:induction false} SumSplits(cal: Calendar, events: seq<Event>, period: Period, cutoff: Instant)
    ensures Sum(events, InPeriod(cal, period))
         == Sum(events, OldIn(cal, period, cutoff)) + Sum(Newer(events, cutoff), InPeriod(cal, period))
  {
    if events != [] {
      var n := |events| - 1;
      SumSplits(cal, events[..n], period, cutoff);
      if events[n].at >= cutoff {
        assert Newer(events, cutoff)[..|Newer(events[..n], cutoff)|] == Newer(events[..n], cutoff);
      } else {
        assert Newer(events, cutoff) == Newer(events[..n], cutoff);
      }
    }
  }

  // ---------- what the tables mean ----------

  /** Rollups and remaining events together account for everything ever recorded, month by month. */
  ghost predicate Accounted(cal: Calendar, events: seq<Event>, rollups: map<Period, Rollup>, log: seq<Event>) {
    forall period :: Rolled(rollups, period) + Sum(events, InPeriod(cal, period)) == Sum(log, InPeriod(cal, period))
  }

  /** Nothing still in the log is older than any fold, and every fold stopped an hour short of its commit. */
  ghost predicate Folded(cal: Calendar, events: seq<Event>, rollups: map<Period, Rollup>, clock: Instant) {
    && (forall e | e in events :: e.at <= clock)
    && (forall period | period in rollups :: cal.start(period.month) <= rollups[period].through <= clock - HOUR)
    && (forall period, e | period in rollups && e in events :: e.at >= rollups[period].through)
  }

  ghost predicate Sound(cal: Calendar, events: seq<Event>, rollups: map<Period, Rollup>, log: seq<Event>, clock: Instant) {
    Consistent(cal) && Accounted(cal, events, rollups, log) && Folded(cal, events, rollups, clock)
  }

  lemma MonthsGrow(cal: Calendar, t: Instant, u: Instant)
    requires Consistent(cal) && t <= u
    ensures cal.month(t) <= cal.month(u)
  {
    assert cal.start(cal.month(t)) <= t;
  }

  /** Up to when the month is folded: its start, if nothing is. */
  function Through(cal: Calendar, rollups: map<Period, Rollup>, period: Period): Instant {
    if period in rollups then rollups[period].through else cal.start(period.month)
  }

  /** The three queries of the current usage on one snapshot. */
  function Usage(cal: Calendar, events: seq<Event>, rollups: map<Period, Rollup>, code: string, now: Instant): int {
    var period := Period(code, cal.month(now));
    Rolled(rollups, period) + Sum(events, Since(code, Through(cal, rollups, period)))
  }

  /** Read in one snapshot before the month is over, the current usage is the sum of everything recorded in the month. */
  lemma UsageIsMonthTotal(cal: Calendar, events: seq<Event>, rollups: map<Period, Rollup>, log: seq<Event>, clock: Instant,
                          code: string, now: Instant)
    requires Sound(cal, events, rollups, log, clock) && cal.month(clock) <= cal.month(now)
    ensures Usage(cal, events, rollups, code, now) == Sum(log, InPeriod(cal, Period(code, cal.month(now))))
  {
    var period := Period(code, cal.month(now));
    var through := Through(cal, rollups, period);
    forall e | e in events ensures Since(code, through)(e) <==> InPeriod(cal, period)(e) {
      assert cal.start(period.month) <= e.at <==> period.month <= cal.month(e.at);
      assert cal.start(cal.month(e.at)) <= clock <==> cal.month(e.at) <= cal.month(clock);
      assert cal.start(cal.month(e.at)) <= e.at;
      assert e.at >= through ==> cal.start(period.month) <= e.at;
      if InPeriod(cal, period)(e) && period in rollups { assert e.at >= rollups[period].through; }
    }
    SumSame(events, Since(code, through), InPeriod(cal, period));
  }

  lemma CompactionAccounts(cal: Calendar, events: seq<Event>, rollups: map<Period, Rollup>, log: seq<Event>, cutoff: Instant)
    requires Accounted(cal, events, rollups, log)
    ensures Accounted(cal, Newer(events, cutoff), Compacted(cal, rollups, events, cutoff), log)
  {
    var rollups' := Compacted(cal, rollups, events, cutoff);
    forall period
      ensures Rolled(rollups', period) + Sum(Newer(events, cutoff), InPeriod(cal, period)) == Sum(log, InPeriod(cal, period))
    {
      SumSplits(cal, events, period, cutoff);
      if period !in Groups(cal, events, cutoff) {
        forall e | e in events ensures !OldIn(cal, period, cutoff)(e) {
          var i :| 0 <= i < |events| && events[i] == e;
          if e.at < cutoff { assert Period(events[i].code, cal.month(events[i].at)) in Groups(cal, events, cutoff); }
        }
        SumNone(events, OldIn(cal, period, cutoff));
      }
    }
  }

  lemma GroupsStarted(cal: Calendar, events: seq<Event>, cutoff: Instant, period: Period)
    requires Consistent(cal) && period in Groups(cal, events, cutoff)
    ensures cal.start(period.month) <= cutoff
  {
    var i :| 0 <= i < |events| && events[i].at < cutoff && period == Period(events[i].code, cal.month(events[i].at));
    assert cal.start(cal.month(events[i].at)) <= events[i].at;
  }

  lemma CompactionFolds(cal: Calendar, events: seq<Event>, rollups: map<Period, Rollup>, clock: Instant, at: Instant, commit: Instant)
    requires Consistent(cal) && Folded(cal, events, rollups, clock) && clock <= commit && at <= commit
    ensures Folded(cal, Newer(events, at - HOUR), Compacted(cal, rollups, events, at - HOUR), commit)
  {
    var cutoff := at - HOUR;
    NewerFacts(events, cutoff);
    var rollups' := Compacted(cal, rollups, events, cutoff);
    forall period | period in rollups'
      ensures cal.start(period.month) <= rollups'[period].through <= commit - HOUR
      ensures rollups'[period].through <= cutoff || (period in rollups && rollups'[period].through == rollups[period].through)
    {
      if period in Groups(cal, events, cutoff) { GroupsStarted(cal, events, cutoff, period); }
    }
    hide Newer, Groups, Consistent, Sum, Compacted;
  }

  /** Folding is invisible: it keeps every month's account and leaves no event behind the fold. */
  lemma CompactionIsInvisible(cal: Calendar, events: seq<Event>, rollups: map<Period, Rollup>, log: seq<Event>,
                              clock: Instant, at: Instant, commit: Instant)
    requires Sound(cal, events, rollups, log, clock) && clock <= commit && at <= commit
    ensures Sound(cal, Newer(events, at - HOUR), Compacted(cal, rollups, events, at - HOUR), log, commit)
  {
    hide Accounted, Folded, Consistent, Newer, Compacted;
    CompactionAccounts(cal, events, rollups, log, at - HOUR);
    CompactionFolds(cal, events, rollups, clock, at, commit);
  }

  /** A recording that commits at most an hour after it read the clock never falls behind a fold. */
  lemma RecordingAccounts(cal: Calendar, events: seq<Event>, rollups: map<Period, Rollup>, log: seq<Event>, clock: Instant,
                          e: Event, commit: Instant)
    requires Sound(cal, events, rollups, log, clock) && clock <= commit && e.at <= commit <= e.at + HOUR
    ensures Sound(cal, events + [e], rollups, log + [e], commit)
  {
    assert (events + [e])[..|events|] == events && (log + [e])[..|log|] == log;
    forall period
      ensures Rolled(rollups, period) + Sum(events + [e], InPeriod(cal, period)) == Sum(log + [e], InPeriod(cal, period))
    {
      assert Rolled(rollups, period) + Sum(events, InPeriod(cal, period)) == Sum(log, InPeriod(cal, period));
    }
  }

  /** Time alone changes nothing. */
  lemma WaitingIsSound(cal: Calendar, events: seq<Event>, rollups: map<Period, Rollup>, log: seq<Event>, clock: Instant, now: Instant)
    requires Sound(cal, events, rollups, log, clock) && clock <= now
    ensures Sound(cal, events, rollups, log, now)
  {
    hide Accounted, InPeriod, Consistent;
  }

  // ---------- decisions ----------

  datatype Policy = Block | Grace | Overage | WarnOnly

  datatype Outcome = Allowed | Warned | Excess | Blocked

  /** The grace factor is 1.10, taken as an exact number. */
  function Decide(policy: Policy, limit: int, wouldBe: int): Outcome {
    if wouldBe <= limit then Allowed
    else
      match policy
      case Block => Blocked
      case Grace => if 10 * wouldBe <= 11 * limit then Warned else Blocked
      case Overage => Excess
      case WarnOnly => Warned
  }

  // ---------- the tables ----------

  class MeterTables {
    const cal: Calendar
    var events: seq<Event>
    var rollups: map<Period, Rollup>
    ghost var log: seq<Event>
    ghost var clock: Instant

    ghost predicate Valid()
      reads this
    {
      Sound(cal, events, rollups, log, clock)
    }

    constructor (cal: Calendar)
      requires Consistent(cal)
      ensures Valid() && this.cal == cal && log == [] && clock == 0
    {
      this.cal := cal;
      events, rollups, log, clock := [], map[], [], 0;
    }

    /** The first query. */
    method RolledUsage(period: Period) returns (rolled: int)
      ensures rolled == Rolled(rollups, period)
    {
      rolled := 0;
      if period in rollups { rolled := rollups[period].amount; }
    }

    /** The second query. */
    method CompactedThrough(period: Period) returns (through: Instant)
      ensures through == Through(cal, rollups, period)
    {
      through := cal.start(period.month);
      if period in rollups { through := rollups[period].through; }
    }

    /** The third query. */
    method LiveUsage(code: string, through: Instant) returns (live: int)
      ensures live == Sum(events, Since(code, through))
    {
      live := 0;
      for i := 0 to |events|
        invariant live == Sum(events[..i], Since(code, through))
      {
        if events[i].code == code && events[i].at >= through { live := live + events[i].amount; }
        assert events[..i + 1][..i] == events[..i];
      }
      assert events[..|events|] == events;
    }

    /** The three queries with nothing committed in between. */
    method CurrentPeriodUsage(code: string, now: Instant) returns (used: int)
      requires Valid() && clock <= now
      ensures used == Sum(log, InPeriod(cal, Period(code, cal.month(now))))
    {
      var period := Period(code, cal.month(now));
      var rolled := RolledUsage(period);
      var through := CompactedThrough(period);
      var live := LiveUsage(code, through);
      used := rolled + live;
      MonthsGrow(cal, clock, now);
      UsageIsMonthTotal(cal, events, rollups, log, clock, code, now);
    }

    method RecordUsage(code: string, amount: int, limit: int, policy: Policy, now: Instant) returns (outcome: Outcome)
      requires Valid() && clock <= now
      modifies this
      ensures Valid() && clock == now
      ensures var total := Sum(old(log), InPeriod(cal, Period(code, cal.month(now)))) + amount;
        && (outcome.Allowed? <==> total <= limit)
        && (outcome.Blocked? <==> total > limit && (policy.Block? || (policy.Grace? && 10 * total > 11 * limit)))
        && (outcome.Excess? <==> total > limit && policy.Overage?)
        && (outcome.Warned? <==> total > limit && (policy.WarnOnly? || (policy.Grace? && 10 * total <= 11 * limit)))
      ensures log == if outcome.Blocked? then old(log) else old(log) + [Event(code, amount, now)]
    {
      hide Sound;
      var used := CurrentPeriodUsage(code, now);
      WaitingIsSound(cal, events, rollups, log, clock, now);
      outcome := Decide(policy, limit, used + amount);
      if outcome.Blocked? {
        clock := now;
      } else {
        RecordingAccounts(cal, events, rollups, log, clock, Event(code, amount, now), now);
        events := events + [Event(code, amount, now)];
        log, clock := log + [Event(code, amount, now)], now;
      }
    }

    /** Adds the old events of every period to its rollup. */
    method Fold(cutoff: Instant)
      modifies this`rollups
      ensures rollups == Compacted(cal, old(rollups), events, cutoff)
    {
      hide Sum, OldIn, Groups;
      var groups := Groups(cal, events, cutoff);
      var todo := groups;
      while exists period :: period in todo
        invariant todo <= groups
        invariant forall period :: period in rollups <==> period in old(rollups) || (period in groups && period !in todo)
        invariant forall period | period in rollups ::
          rollups[period] == if period in groups && period !in todo then WithOld(cal, old(rollups), events, period, cutoff)
                             else old(rollups)[period]
        decreases |todo|
      {
        var period :| period in todo;
        var total := Sum(events, OldIn(cal, period, cutoff));
        var rollup := Rollup(if period in rollups then rollups[period].amount + total else total, cutoff);
        assert rollup == WithOld(cal, old(rollups), events, period, cutoff);
        hide WithOld;
        rollups := rollups[period := rollup];
        todo := todo - {period};
      }
      assert forall period :: period !in todo;
      ghost var folded := Compacted(cal, old(rollups), events, cutoff);
      assert forall period :: period in rollups <==> period in folded;
      assert forall period | period in rollups :: rollups[period] == folded[period];
      assert rollups == folded;
    }

    method Compact(now: Instant)
      requires Valid() && clock <= now
      modifies this
      ensures Valid() && log == old(log) && clock == now
      ensures events == Newer(old(events), now - HOUR)
      ensures forall e :: e in events <==> e in old(events) && e.at >= now - 3600
      ensures rollups == Compacted(cal, old(rollups), old(events), now - HOUR)
    {
      hide Sound, Compacted, Newer;
      var cutoff := now - HOUR;
      CompactionIsInvisible(cal, events, rollups, log, clock, now, now);
      Fold(cutoff);
      NewerFacts(events, cutoff);
      events := Newer(events, cutoff);
      clock := now;
    }
  }

  // ---------- whole runs ----------

  /** `at` is when the operation read the clock, `commit` when it committed. */
  datatype Op =
    | Record(code: string, amount: int, limit: int, policy: Policy, at: Instant, commit: Instant)
    | Fold(at: Instant, commit: Instant)

  /** The tables after a sequence of operations; `clock` is the last commit's. */
  datatype Meters = Meters(events: seq<Event>, rollups: map<Period, Rollup>, log: seq<Event>, clock: Instant)

  /** Commits come in order, though the clock need not have been read in that order; a recording takes an hour at most. */
  predicate Enabled(m: Meters, op: Op) {
    m.clock <= op.commit && op.at <= op.commit && (op.Record? ==> op.commit <= op.at + HOUR)
  }

  function Step(cal: Calendar, m: Meters, op: Op): Meters {
    if !Enabled(m, op) then m
    else
      match op
      case Record(code, amount, limit, policy, at, commit) =>
        if Decide(policy, limit, Usage(cal, m.events, m.rollups, code, at) + amount).Blocked? then m.(clock := commit)
        else
          var e := Event(code, amount, at);
          Meters(m.events + [e], m.rollups, m.log + [e], commit)
      case Fold(at, commit) =>
        Meters(Newer(m.events, at - HOUR), Compacted(cal, m.rollups, m.events, at - HOUR), m.log, commit)
  }

  function From(cal: Calendar, m: Meters, ops: seq<Op>): Meters
    decreases |ops|
  {
    if ops == [] then m else Step(cal, From(cal, m, ops[..|ops| - 1]), ops[|ops| - 1])
  }

  const EMPTY := Meters([], map[], [], 0)

  function Run(cal: Calendar, ops: seq<Op>): Meters { From(cal, EMPTY, ops) }

  lemma StepIsSound(cal: Calendar, m: Meters, op: Op)
    requires Sound(cal, m.events, m.rollups, m.log, m.clock)
    ensures var m' := Step(cal, m, op); Sound(cal, m'.events, m'.rollups, m'.log, m'.clock)
  {
    hide Sound, Usage, Newer, Compacted, Decide;
    if Enabled(m, op) {
      if op.Fold? {
        CompactionIsInvisible(cal, m.events, m.rollups, m.log, m.clock, op.at, op.commit);
      } else {
        WaitingIsSound(cal, m.events, m.rollups, m.log, m.clock, op.commit);
        RecordingAccounts(cal, m.events, m.rollups, m.log, m.clock, Event(op.code, op.amount, op.at), op.commit);
      }
    }
  }

  ghost predicate SoundMeters(cal: Calendar, m: Meters) { Sound(cal, m.events, m.rollups, m.log, m.clock) }

  lemma {:induction false} FromIsSound(cal: Calendar, m: Meters, ops: seq<Op>)
    requires SoundMeters(cal, m)
    ensures SoundMeters(cal, From(cal, m, ops))
    decreases |ops|
  {
    if ops != [] {
      hide Sound, Step;
      FromIsSound(cal, m, ops[..|ops| - 1]);
      StepIsSound(cal, From(cal, m, ops[..|ops| - 1]), ops[|ops| - 1]);
    }
  }

  lemma RunIsSound(cal: Calendar, ops: seq<Op>)
    requires Consistent(cal)
    ensures SoundMeters(cal, Run(cal, ops))
  {
    assert SoundMeters(cal, EMPTY);
    hide Sound;
    FromIsSound(cal, EMPTY, ops);
  }

  /** Over any run, month boundaries included, no compaction shows in a usage read in one snapshot, and nothing is lost. */
  lemma SnapshotIsExact(cal: Calendar, ops: seq<Op>, code: string, now: Instant)
    requires Consistent(cal) && cal.month(Run(cal, ops).clock) <= cal.month(now)
    ensures var m := Run(cal, ops);
      && Usage(cal, m.events, m.rollups, code, now) == Sum(m.log, InPeriod(cal, Period(code, cal.month(now))))
      && forall period :: Rolled(m.rollups, period) + Sum(m.events, InPeriod(cal, period)) == Sum(m.log, InPeriod(cal, period))
  {
    RunIsSound(cal, ops);
    var m := Run(cal, ops);
    UsageIsMonthTotal(cal, m.events, m.rollups, m.log, m.clock, code, now);
  }

  // ---------- the compaction's statements apart ----------

  lemma YoungerStays(cal: Calendar, events: seq<Event>, e: Event, cutoff: Instant)
    requires e.at >= cutoff
    ensures Newer(events + [e], cutoff) == Newer(events, cutoff) + [e]
    ensures Groups(cal, events + [e], cutoff) == Groups(cal, events, cutoff)
    ensures forall period :: Sum(events + [e], OldIn(cal, period, cutoff)) == Sum(events, OldIn(cal, period, cutoff))
  {
    var more := events + [e];
    assert more[..|events|] == events;
    forall period ensures period in Groups(cal, more, cutoff) <==> period in Groups(cal, events, cutoff) {
      if period in Groups(cal, more, cutoff) {
        var i :| 0 <= i < |more| && more[i].at < cutoff && period == Period(more[i].code, cal.month(more[i].at));
        assert events[i] == more[i];
      }
      if period in Groups(cal, events, cutoff) {
        var i :| 0 <= i < |events| && events[i].at < cutoff && period == Period(events[i].code, cal.month(events[i].at));
        assert more[i] == events[i];
      }
    }
  }

  lemma SameFold(cal: Calendar, rollups: map<Period, Rollup>, events: seq<Event>, e: Event, cutoff: Instant)
    requires e.at >= cutoff
    ensures Compacted(cal, rollups, events + [e], cutoff) == Compacted(cal, rollups, events, cutoff)
  {
    YoungerStays(cal, events, e, cutoff);
    hide Sum, Groups;
    var p, q := Compacted(cal, rollups, events + [e], cutoff), Compacted(cal, rollups, events, cutoff);
    assert p.Keys == q.Keys;
    forall period | period in p ensures p[period] == q[period] {
    }
    assert p == q;
  }

  lemma AppendsOn(cal: Calendar, m: Meters, s: Meters, e: Event, cutoff: Instant)
    requires e.at >= cutoff && m.events <= s.events
    requires Compacted(cal, m.rollups, s.events, cutoff) == Compacted(cal, m.rollups, m.events, cutoff)
    requires Newer(s.events, cutoff) == Newer(m.events, cutoff) + s.events[|m.events|..]
    ensures var more := s.events + [e];
      && m.events <= more && Compacted(cal, m.rollups, more, cutoff) == Compacted(cal, m.rollups, m.events, cutoff)
      && Newer(more, cutoff) == Newer(m.events, cutoff) + more[|m.events|..]
  {
    YoungerStays(cal, s.events, e, cutoff);
    SameFold(cal, m.rollups, s.events, e, cutoff);
    hide Newer, Compacted, Groups, Sum, OldIn;
    assert (s.events + [e])[|m.events|..] == s.events[|m.events|..] + [e];
  }

  /** A recording appends one event that is not old, or nothing. */
  lemma RecordAppends(cal: Calendar, m: Meters, op: Op, at: Instant)
    requires op.Record? && at <= op.commit
    ensures var m', e := Step(cal, m, op), Event(op.code, op.amount, op.at);
      m'.rollups == m.rollups && (m'.events == m.events || (m'.events == m.events + [e] && e.at >= at - HOUR))
  {
    hide Usage, Decide;
  }

  /**
   * The reason for the margin: what commits after the compaction read the clock `at`, up
   * to its delete, is in none of its groups and survives the delete, so that grouping,
   * folding and deleting are one step although nothing locks the events.
   */
  lemma {:induction false} FoldIsOneStep(cal: Calendar, m: Meters, ops: seq<Op>, at: Instant)
    requires forall i | 0 <= i < |ops| :: ops[i].Record? && at <= ops[i].commit
    ensures var m', cutoff := From(cal, m, ops), at - HOUR;
      && m'.rollups == m.rollups && m.events <= m'.events
      && Compacted(cal, m.rollups, m'.events, cutoff) == Compacted(cal, m.rollups, m.events, cutoff)
      && Newer(m'.events, cutoff) == Newer(m.events, cutoff) + m'.events[|m.events|..]
    decreases |ops|
  {
    var cutoff := at - HOUR;
    if ops == [] {
      assert m.events[|m.events|..] == [];
    } else {
      var before, op := ops[..|ops| - 1], ops[|ops| - 1];
      FoldIsOneStep(cal, m, before, at);
      var s, e := From(cal, m, before), Event(op.code, op.amount, op.at);
      RecordAppends(cal, s, op, at);
      hide Step, Newer, Compacted;
      if From(cal, m, ops).events != s.events {
        AppendsOn(cal, m, s, e, cutoff);
      }
    }
  }

  // ---------- the three queries apart ----------

  /**
   * What the current usage returns when `first` was committed before its first query,
   * `second` before its second and `third` before its third.
   */
  function Reading(cal: Calendar, first: Meters, second: Meters, third: Meters, code: string, now: Instant): int {
    var period := Period(code, cal.month(now));
    Rolled(first.rollups, period) + Sum(third.events, Since(code, Through(cal, second.rollups, period)))
  }

  function MonthTotal(cal: Calendar, m: Meters, period: Period): int { Sum(m.log, InPeriod(cal, period)) }

  /** What compaction has moved into a month's rollup between two states. */
  function Moved(m: Meters, m': Meters, period: Period): int { Rolled(m'.rollups, period) - Rolled(m.rollups, period) }

  /** What is live of the months after. */
  function LaterLive(cal: Calendar, m: Meters, period: Period): int {
    Sum(m.events, (e: Event) => e.code == period.code && cal.month(e.at) > period.month)
  }

  lemma {:induction false} SumOfTwo(events: seq<Event>, p: Event -> bool, q: Event -> bool, r: Event -> bool)
    requires forall e :: p(e) <==> q(e) || r(e)
    requires forall e :: !(q(e) && r(e))
    ensures Sum(events, p) == Sum(events, q) + Sum(events, r)
  {
    if events != [] { SumOfTwo(events[..|events| - 1], p, q, r); }
  }

  lemma ThroughStep(cal: Calendar, m: Meters, op: Op, period: Period)
    requires SoundMeters(cal, m)
    ensures var m' := Step(cal, m, op);
      Through(cal, m.rollups, period) <= Through(cal, m'.rollups, period) && (period in m.rollups ==> period in m'.rollups)
  {
    hide Sum, Newer, Usage, Decide, Accounted;
    if op.Fold? && Enabled(m, op) && period in Groups(cal, m.events, op.at - HOUR) {
      var i :| 0 <= i < |m.events| && m.events[i].at < op.at - HOUR && period == Period(m.events[i].code, cal.month(m.events[i].at));
      assert m.events[i] in m.events;
      assert cal.start(cal.month(m.events[i].at)) <= m.events[i].at;
    }
  }

  lemma {:induction false} ThroughGrows(cal: Calendar, m: Meters, ops: seq<Op>, period: Period)
    requires SoundMeters(cal, m)
    ensures var m' := From(cal, m, ops);
      Through(cal, m.rollups, period) <= Through(cal, m'.rollups, period) && (period in m.rollups ==> period in m'.rollups)
    decreases |ops|
  {
    if ops != [] {
      hide SoundMeters, Step, Through;
      ThroughGrows(cal, m, ops[..|ops| - 1], period);
      FromIsSound(cal, m, ops[..|ops| - 1]);
      ThroughStep(cal, From(cal, m, ops[..|ops| - 1]), ops[|ops| - 1], period);
    }
  }

  /** From the time up to which a month was folded once, the live events are the month's and those of later months. */
  lemma LiveSince(cal: Calendar, m: Meters, ops: seq<Op>, period: Period)
    requires SoundMeters(cal, m)
    ensures var m' := From(cal, m, ops);
      Sum(m'.events, Since(period.code, Through(cal, m.rollups, period)))
      == Sum(m'.events, InPeriod(cal, period)) + LaterLive(cal, m', period)
  {
    var m' := From(cal, m, ops);
    FromIsSound(cal, m, ops);
    ThroughGrows(cal, m, ops, period);
    hide From, Accounted;
    var through := Through(cal, m.rollups, period);
    var later := (e: Event) => e.code == period.code && cal.month(e.at) > period.month;
    var both := (e: Event) => e.code == period.code && cal.month(e.at) >= period.month;
    forall e | e in m'.events ensures Since(period.code, through)(e) <==> both(e) {
      assert cal.start(period.month) <= e.at <==> period.month <= cal.month(e.at);
      assert period in m.rollups ==> through <= m'.rollups[period].through <= e.at && cal.start(period.month) <= through;
    }
    SumSame(m'.events, Since(period.code, through), both);
    SumOfTwo(m'.events, both, InPeriod(cal, period), later);
    SumSame(m'.events, later, (e: Event) => e.code == period.code && cal.month(e.at) > period.month);
  }

  /**
   * Whatever commits between the three queries, the result is the month's total at the
   * last of them, less what compaction moved between the first and the last, plus what is
   * then live of later months.
   */
  lemma ReadingIsOff(cal: Calendar, before: seq<Op>, between: seq<Op>, after: seq<Op>, code: string, now: Instant)
    requires Consistent(cal)
    ensures var first := Run(cal, before);
      var second := From(cal, first, between);
      var third := From(cal, second, after);
      var period := Period(code, cal.month(now));
      Reading(cal, first, second, third, code, now)
      == MonthTotal(cal, third, period) - Moved(first, third, period) + LaterLive(cal, third, period)
  {
    RunIsSound(cal, before);
    var first := Run(cal, before);
    var second := From(cal, first, between);
    FromIsSound(cal, first, between);
    FromIsSound(cal, second, after);
    LiveSince(cal, second, after, Period(code, cal.month(now)));
    var third := From(cal, second, after);
    assert Accounted(cal, third.events, third.rollups, third.log);
    hide From, LaterLive, Sum;
  }

  /**
   * What a blocking meter can exceed its limit by: what compaction moved while the usage
   * was read, and what others recorded since its last query.
   */
  lemma OvershootIsTheWindow(cal: Calendar, before: seq<Op>, between: seq<Op>, after: seq<Op>, last: seq<Op>, code: string,
                             now: Instant, amount: int, limit: int)
    requires Consistent(cal)
    ensures var first := Run(cal, before);
      var second := From(cal, first, between);
      var third := From(cal, second, after);
      var fourth := From(cal, third, last);
      var period := Period(code, cal.month(now));
      !Decide(Block, limit, Reading(cal, first, second, third, code, now) + amount).Blocked? ==>
        MonthTotal(cal, fourth, period) + amount
        <= limit + Moved(first, third, period) - LaterLive(cal, third, period)
           + (MonthTotal(cal, fourth, period) - MonthTotal(cal, third, period))
  {
    ReadingIsOff(cal, before, between, after, code, now);
  }

  /** Step `i` is a compaction that folds an event of the period. */
  ghost predicate Moves(cal: Calendar, m: Meters, ops: seq<Op>, i: nat, period: Period)
    requires i < |ops|
  {
    var s := From(cal, m, ops[..i]);
    && ops[i].Fold? && Enabled(s, ops[i])
    && exists e :: e in s.events && OldIn(cal, period, ops[i].at - HOUR)(e)
  }

  ghost predicate NothingMoves(cal: Calendar, m: Meters, ops: seq<Op>, period: Period) {
    forall i: nat | i < |ops| :: !Moves(cal, m, ops, i, period)
  }

  ghost predicate Positive(events: seq<Event>) { forall e | e in events :: e.amount > 0 }

  ghost predicate Records(ops: seq<Op>) { forall i | 0 <= i < |ops| :: ops[i].Record? ==> ops[i].amount > 0 }

  lemma {:induction false} SumPositive(events: seq<Event>, p: Event -> bool)
    requires Positive(events)
    ensures Sum(events, p) >= 0
    ensures Sum(events, p) == 0 <==> forall e | e in events :: !p(e)
  {
    if events != [] {
      var n := |events| - 1;
      assert events == events[..n] + [events[n]];
      SumPositive(events[..n], p);
    }
  }

  /** A period outside the groups has nothing to fold, and one among them has. */
  lemma GroupsMove(cal: Calendar, events: seq<Event>, cutoff: Instant, period: Period)
    ensures period in Groups(cal, events, cutoff) <==> exists e :: e in events && OldIn(cal, period, cutoff)(e)
  {
    if period in Groups(cal, events, cutoff) {
      var i :| 0 <= i < |events| && events[i].at < cutoff && period == Period(events[i].code, cal.month(events[i].at));
      var e := events[i];
      assert e in events && InPeriod(cal, period)(e);
      assert OldIn(cal, period, cutoff)(e);
    }
    if exists e :: e in events && OldIn(cal, period, cutoff)(e) {
      var e :| e in events && OldIn(cal, period, cutoff)(e);
      assert InPeriod(cal, period)(e);
      var i :| 0 <= i < |events| && events[i] == e;
      assert period == Period(events[i].code, cal.month(events[i].at));
    }
  }

  lemma StepMoves(cal: Calendar, m: Meters, op: Op, period: Period)
    requires Positive(m.events) && (op.Record? ==> op.amount > 0)
    ensures var m' := Step(cal, m, op);
      && Positive(m'.events) && Moved(m, m', period) >= 0
      && (Moved(m, m', period) == 0 <==> !Moves(cal, m, [op], 0, period))
  {
    assert From(cal, m, []) == m && [op][..0] == [];
    hide From;
    if op.Fold? && Enabled(m, op) {
      var cutoff := op.at - HOUR;
      NewerFacts(m.events, cutoff);
      SumPositive(m.events, OldIn(cal, period, cutoff));
      GroupsMove(cal, m.events, cutoff, period);
      hide Newer, Groups, Sum, OldIn;
    }
  }

  lemma MovesOn(cal: Calendar, m: Meters, ops: seq<Op>, op: Op, period: Period)
    ensures NothingMoves(cal, m, ops + [op], period)
       <==> NothingMoves(cal, m, ops, period) && !Moves(cal, From(cal, m, ops), [op], 0, period)
  {
    var more := ops + [op];
    assert From(cal, From(cal, m, ops), []) == From(cal, m, ops);
    assert [op][..0] == [] && more[..|ops|] == ops && more[|ops|] == op;
    hide From;
    assert Moves(cal, m, more, |ops|, period) <==> Moves(cal, From(cal, m, ops), [op], 0, period);
    forall i: nat | i < |ops| ensures Moves(cal, m, more, i, period) <==> Moves(cal, m, ops, i, period) {
      assert more[..i] == ops[..i] && more[i] == ops[i];
    }
  }

  lemma {:induction false} MovedExactly(cal: Calendar, m: Meters, ops: seq<Op>, period: Period)
    requires Positive(m.events) && Records(ops)
    ensures var m' := From(cal, m, ops);
      && Positive(m'.events) && Moved(m, m', period) >= 0
      && (Moved(m, m', period) == 0 <==> NothingMoves(cal, m, ops, period))
    decreases |ops|
  {
    if ops != [] {
      var before, op := ops[..|ops| - 1], ops[|ops| - 1];
      assert ops == before + [op];
      hide Step, Moves, NothingMoves, Positive;
      MovedExactly(cal, m, before, period);
      StepMoves(cal, From(cal, m, before), op, period);
      MovesOn(cal, m, before, op, period);
    }
  }

  lemma {:induction false} FromOn(cal: Calendar, m: Meters, before: seq<Op>, after: seq<Op>)
    ensures From(cal, m, before + after) == From(cal, From(cal, m, before), after)
    decreases |after|
  {
    if after == [] {
      assert before + after == before;
    } else {
      FromOn(cal, m, before, after[..|after| - 1]);
      assert (before + after)[..|before + after| - 1] == before + after[..|after| - 1];
    }
  }

  lemma NothingLater(cal: Calendar, m: Meters, period: Period)
    requires SoundMeters(cal, m) && cal.month(m.clock) <= period.month
    ensures LaterLive(cal, m, period) == 0
  {
    var later := (e: Event) => e.code == period.code && cal.month(e.at) > period.month;
    forall e | e in m.events ensures !later(e) {
      MonthsGrow(cal, e.at, m.clock);
    }
    SumNone(m.events, later);
    SumSame(m.events, later, (e: Event) => e.code == period.code && cal.month(e.at) > period.month);
  }

  /**
   * With positive amounts and the month not over yet, the current usage is the month's
   * total at its last query exactly if no compaction that commits between its first and
   * its last query folds an event of that code and month; otherwise it is too low.
   */
  lemma ReadingIsExact(cal: Calendar, before: seq<Op>, between: seq<Op>, after: seq<Op>, code: string, now: Instant)
    requires Consistent(cal) && Records(before) && Records(between) && Records(after)
    requires cal.month(From(cal, From(cal, Run(cal, before), between), after).clock) <= cal.month(now)
    ensures var first := Run(cal, before);
      var second := From(cal, first, between);
      var third := From(cal, second, after);
      var period := Period(code, cal.month(now));
      && Reading(cal, first, second, third, code, now) <= MonthTotal(cal, third, period)
      && (Reading(cal, first, second, third, code, now) == MonthTotal(cal, third, period)
          <==> NothingMoves(cal, first, between + after, period))
  {
    var first, period := Run(cal, before), Period(code, cal.month(now));
    var second := From(cal, first, between);
    var third := From(cal, second, after);
    ReadingIsOff(cal, before, between, after, code, now);
    RunIsSound(cal, before);
    FromIsSound(cal, first, between);
    FromIsSound(cal, second, after);
    NothingLater(cal, third, period);
    FromOn(cal, first, between, after);
    MovedExactly(cal, EMPTY, before, period);
    hide From, Sum, Moves, SoundMeters, LaterLive;
    assert Records(between + after);
    MovedExactly(cal, first, between + after, period);
  }

  /** Every recording commits at the instant at which it read the clock. */
  ghost predicate Prompt(ops: seq<Op>) { forall i | 0 <= i < |ops| :: ops[i].Record? ==> ops[i].commit == ops[i].at }

  lemma LaterIsCovered(cal: Calendar, ops: seq<Op>, period: Period)
    requires Consistent(cal) && (Records(ops) || cal.month(Run(cal, ops).clock) <= period.month)
    ensures LaterLive(cal, Run(cal, ops), period) >= 0
  {
    RunIsSound(cal, ops);
    if Records(ops) {
      MovedExactly(cal, EMPTY, ops, period);
      var later := (e: Event) => e.code == period.code && cal.month(e.at) > period.month;
      SumPositive(Run(cal, ops).events, later);
      SumSame(Run(cal, ops).events, later, (e: Event) => e.code == period.code && cal.month(e.at) > period.month);
    } else {
      NothingLater(cal, Run(cal, ops), period);
    }
  }

  /**
   * If recordings decide one after the other, each on a usage read in one snapshot, a
   * blocking meter whose limit never exceeds `limit` never holds more than it in any month,
   * be amounts positive or recordings prompt.
   */
  lemma {:induction false} BlockNeverOvershoots(cal: Calendar, ops: seq<Op>, code: string, month: int, limit: nat)
    requires Consistent(cal) && (Records(ops) || Prompt(ops))
    requires forall k | 0 <= k < |ops| :: ops[k].Record? && ops[k].code == code ==> ops[k].policy.Block? && ops[k].limit <= limit
    ensures MonthTotal(cal, Run(cal, ops), Period(code, month)) <= limit
    decreases |ops|
  {
    hide Usage, Newer, Compacted, LaterLive;
    if ops != [] {
      var before, op := ops[..|ops| - 1], ops[|ops| - 1];
      var m := Run(cal, before);
      BlockNeverOvershoots(cal, before, code, month, limit);
      if op.Record? && Enabled(m, op) {
        var period := Period(op.code, cal.month(op.at));
        ReadingIsOff(cal, before, [], [], op.code, op.at);
        assert From(cal, m, []) == m;
        if Prompt(ops) { RunIsSound(cal, before); MonthsGrow(cal, m.clock, op.at); }
        LaterIsCovered(cal, before, period);
        UsageIsReading(cal, m, op.code, op.at);
        var e := Event(op.code, op.amount, op.at);
        assert (m.log + [e])[..|m.log|] == m.log;
      }
    }
  }

  lemma UsageIsReading(cal: Calendar, m: Meters, code: string, now: Instant)
    ensures Usage(cal, m.events, m.rollups, code, now) == Reading(cal, m, m, m, code, now)
  {
  }

  /** Months of thirty days. */
  const PLAIN := Calendar((t: Instant) => t / (30 * DAY), (m: int) => m * (30 * DAY))

  lemma PlainIsConsistent()
    ensures Consistent(PLAIN)
  {
    forall t, m ensures PLAIN.start(m) <= t <==> m <= PLAIN.month(t) {
      assert PLAIN.start(m) == m * 2592000 && PLAIN.month(t) == t / 2592000;
      assert t / 2592000 * 2592000 <= t < (t / 2592000 + 1) * 2592000;
    }
  }

  lemma OneStep(cal: Calendar, m: Meters, op: Op)
    ensures From(cal, m, [op]) == Step(cal, m, op)
  {
    assert [op][..0] == [] && From(cal, m, []) == m;
  }

  lemma OneRecorded(e: Event)
    requires e == Event("x", 1, 0)
    ensures Step(PLAIN, EMPTY, Record("x", 1, 1, Block, 0, 0)) == Meters([e], map[], [e], 0)
  {
    assert Sum([], Since("x", Through(PLAIN, map[], Period("x", PLAIN.month(0))))) == 0;
  }

  lemma OneFolded(e: Event)
    requires e == Event("x", 1, 0)
    ensures var m := Step(PLAIN, Meters([e], map[], [e], 0), Fold(2 * HOUR, 2 * HOUR)); m.events == [] && m.log == [e]
  {
    assert [e][..0] == [];
    assert Newer([], 2 * HOUR - HOUR) == [];
    assert Newer([e], 2 * HOUR - HOUR) == [];
    hide Compacted, Newer;
  }

  /**
   * One unit is recorded; the compaction two hours later commits between the first query
   * and the second. The usage is read as 0 although the unit was there all the time, so
   * that a blocking meter with a limit of 1 admits a second unit.
   */
  lemma CompactionShows()
    ensures Consistent(PLAIN) && PLAIN.month(2 * HOUR) == 0
    ensures var first := Run(PLAIN, [Record("x", 1, 1, Block, 0, 0)]);
      var second := From(PLAIN, first, [Fold(2 * HOUR, 2 * HOUR)]);
      var used := Reading(PLAIN, first, second, second, "x", 2 * HOUR);
      && MonthTotal(PLAIN, first, Period("x", 0)) == 1 && MonthTotal(PLAIN, second, Period("x", 0)) == 1
      && used == 0 && Decide(Block, 1, used + 1).Allowed?
  {
    PlainIsConsistent();
    var e := Event("x", 1, 0);
    OneStep(PLAIN, EMPTY, Record("x", 1, 1, Block, 0, 0));
    OneRecorded(e);
    var first := Meters([e], map[], [e], 0);
    OneStep(PLAIN, first, Fold(2 * HOUR, 2 * HOUR));
    OneFolded(e);
    assert Sum([e], InPeriod(PLAIN, Period("x", 0))) == 1 by { assert [e][..0] == []; }
    hide From, Step;
    var second := From(PLAIN, first, [Fold(2 * HOUR, 2 * HOUR)]);
    assert Reading(PLAIN, first, second, second, "x", 2 * HOUR) == 0;
  }
}
