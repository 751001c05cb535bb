/**
 * Sweep periods are claimed by inserting a row that nobody else has inserted, and old
 * rows are deleted. A deleted row must never be claimable again.
 */
module SweepLeases {
  import opened Basics

  /** Time in ticks of 100 ns. */
  const TICKS: int := 10_000_000
  const RETENTION: int := 30 * DAY * TICKS

  /** The bucket an instant falls in, aligned to the epoch; a non-positive interval is refused. */
  function PeriodOf(now: nat, interval: int): Option<nat> {
    if interval <= 0 then None else Some(now - now % interval)
  }

  lemma {:induction false} MultipleGrows(d: nat, k: nat)
    requires k >= 1
    ensures d * k >= d
  {
    if k > 1 {
      MultipleGrows(d, k - 1);
      assert d * k == d * (k - 1) + d;
    }
  }

  /** Quotient and remainder are unique. */
  lemma Remainder(x: nat, d: nat, q: nat, r: nat)
    requires d > 0 && x == d * q + r && r < d
    ensures x % d == r
  {
    var p := x / d;
    assert x == d * p + x % d;
    if q > p {
      assert d * q == d * p + d * (q - p);
      MultipleGrows(d, q - p);
    } else if q < p {
      assert d * p == d * q + d * (p - q);
      MultipleGrows(d, p - q);
    }
  }

  lemma Bucket(now: nat, interval: int)
    requires interval > 0
    ensures var p := PeriodOf(now, interval).value;
      p <= now < p + interval && p % interval == 0
  {
    var q := now / interval;
    assert now == interval * q + now % interval;
    Remainder(now - now % interval, interval, q, 0);
  }

  /** Whatever replica asks and whenever in the bucket, the answer is the same. */
  lemma SameBucket(s: nat, t: nat, interval: int)
    requires interval > 0 && PeriodOf(s, interval).value <= t < PeriodOf(s, interval).value + interval
    ensures PeriodOf(t, interval) == PeriodOf(s, interval)
  {
    var q := s / interval;
    assert s == interval * q + s % interval;
    Remainder(t, interval, q, t - (s - s % interval));
  }

  // ---------- claims and cleanup ----------

  datatype Lease = Lease(sweep: string, period: nat)

  /** The rows, the clock, and every claim that was ever won. */
  datatype Leases = Leases(rows: set<Lease>, clock: nat, won: multiset<Lease>)

  datatype Action = Claim(sweep: string, interval: int, at: nat) | Cleanup(at: nat)

  function Claimed(rows: set<Lease>, lease: Lease): set<Lease> { rows + {lease} }

  function Pruned(rows: set<Lease>, now: nat): set<Lease> {
    set r | r in rows && r.period >= now - RETENTION
  }

  /** Replicas claim in any order; the clock never runs backwards. */
  function Next(s: Leases, a: Action): Leases {
    if a.at < s.clock then s
    else
      match a
      case Claim(sweep, interval, at) =>
        var period := PeriodOf(at, interval);
        if period.None? then s.(clock := at)
        else
          var lease := Lease(sweep, period.value);
          if lease in s.rows then s.(clock := at)
          else Leases(Claimed(s.rows, lease), at, s.won + multiset{lease})
      case Cleanup(at) => s.(rows := Pruned(s.rows, at), clock := at)
  }

  const NOBODY := Leases({}, 0, multiset{})

  function Run(actions: seq<Action>): Leases
    decreases |actions|
  {
    if actions == [] then NOBODY else Next(Run(actions[..|actions| - 1]), actions[|actions| - 1])
  }

  predicate WithIntervals(actions: seq<Action>, longest: int) {
    forall i | 0 <= i < |actions| :: actions[i].Claim? ==> actions[i].interval <= longest
  }

  /** What was won is still there, or is older than anything claimable now. */
  ghost predicate Inv(s: Leases) {
    && (forall l | l in s.won :: s.won[l] == 1 && (l in s.rows || l.period < s.clock - RETENTION))
    && (forall l | l in s.rows :: l in s.won)
  }

  lemma NextKeeps(s: Leases, a: Action)
    requires Inv(s) && (a.Claim? ==> a.interval <= RETENTION + 1)
    ensures Inv(Next(s, a))
  {
    if a.Claim? && a.interval > 0 { Bucket(a.at, a.interval); }
    hide PeriodOf;
  }

  /** With intervals of up to thirty days and one tick, no period of a sweep is ever won twice. */
  lemma {:induction false} NeverWonTwice(actions: seq<Action>)
    requires WithIntervals(actions, RETENTION + 1)
    ensures Inv(Run(actions)) && forall l :: Run(actions).won[l] <= 1
    decreases |actions|
  {
    if actions != [] {
      var before := actions[..|actions| - 1];
      assert WithIntervals(before, RETENTION + 1);
      NeverWonTwice(before);
      NextKeeps(Run(before), actions[|actions| - 1]);
    }
  }

  lemma RunOneMore(actions: seq<Action>, a: Action)
    ensures Run(actions + [a]) == Next(Run(actions), a)
  {
    assert (actions + [a])[..|actions|] == actions;
  }

  /** A longer interval outlives its row: claim, cleanup after the retention, claim again in the same bucket. */
  lemma LongIntervalsAreWonTwice(sweep: string, interval: int)
    requires interval > RETENTION + 1
    ensures var actions := [] + [Claim(sweep, interval, 0)] + [Cleanup(RETENTION + 1)] + [Claim(sweep, interval, RETENTION + 1)];
      WithIntervals(actions, interval) && Run(actions).won[Lease(sweep, 0)] == 2
  {
    var later := RETENTION + 1;
    Bucket(0, interval);
    SameBucket(0, later, interval);
    var a1, a2, a3 := Claim(sweep, interval, 0), Cleanup(later), Claim(sweep, interval, later);
    RunOneMore([], a1);
    RunOneMore([] + [a1], a2);
    RunOneMore([] + [a1] + [a2], a3);
  }

  /** Exactly the intervals up to the retention, give or take a tick, are safe. */
  lemma SafeExactlyUpToRetention(interval: int)
    ensures interval <= 30 * 86400 * 10_000_000 + 1
       <==> forall actions | WithIntervals(actions, interval) :: forall l :: Run(actions).won[l] <= 1
  {
    if interval <= RETENTION + 1 {
      forall actions | WithIntervals(actions, interval) ensures forall l :: Run(actions).won[l] <= 1 {
        NeverWonTwice(actions);
      }
    } else {
      LongIntervalsAreWonTwice("", interval);
    }
  }

  // ---------- the table, updated in place ----------

  class LeaseTable {
    var rows: set<Lease>

    constructor ()
      ensures rows == {}
    {
      rows := {};
    }

    method TryClaim(sweep: string, interval: int, now: nat) returns (won: Option<bool>)
      modifies this
      ensures won.None? <==> interval <= 0
      ensures won.None? ==> rows == old(rows)
      ensures won.Some? ==>
        var lease := Lease(sweep, PeriodOf(now, interval).value);
        won.value == (lease !in old(rows)) && rows == Claimed(old(rows), lease)
    {
      if interval <= 0 { return None; }
      var lease := Lease(sweep, now - now % interval);
      won := Some(lease !in rows);
      rows := rows + {lease};
    }

    method Prune(now: nat)
      modifies this
      ensures rows == Pruned(old(rows), now)
    {
      rows := set r | r in rows && !(r.period < now - RETENTION);
    }
  }
}
