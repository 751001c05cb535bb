/**
 * Data exports: at most one outstanding an organization, and at most one archive an
 * admission. The handler and the purge hold the organization's lock until they commit;
 * admission does not, and messages may be delivered any number of times.
 */
module Exports {
  import opened Basics

  /** A handler between taking its locks and committing. */
  datatype Handler = Handler(admission: Guid)

  datatype Exports = Exports(
    reservations: set<Guid>,
    purged: bool,
    working: Option<Handler>,
    archives: multiset<Guid>,
    issued: set<Guid>,
    settled: set<Guid>)

  datatype Action =
    | TryReserve(admission: Guid, locked: bool)
    | Begin(admission: Guid)
    | Finish(withinBudget: bool)
    | Crash
    | PurgeOrg

  /**
   * `working` is the holder of the organization's lock; whoever else wants it waits.
   * `issued` keeps admissions fresh, `settled` remembers those that were consumed.
   */
  function Next(e: Exports, a: Action): Exports {
    match a
    case TryReserve(admission, locked) =>
      if admission in e.issued || !locked || |e.reservations| != 0 then e
      else e.(reservations := e.reservations + {admission}, issued := e.issued + {admission})
    case Begin(admission) =>
      if e.working.Some? then e
      else if e.purged then
        e.(reservations := e.reservations - {admission}, settled := e.settled + (e.reservations * {admission}))
      else if admission !in e.reservations then e
      else e.(working := Some(Handler(admission)))
    case Finish(withinBudget) =>
      if e.working.None? then e
      else
        var admission := e.working.value.admission;
        e.(working := None,
        archives := if withinBudget then e.archives + multiset{admission} else e.archives,
        reservations := e.reservations - {admission},
        settled := e.settled + (e.reservations * {admission}))
    case Crash => e.(working := None)
    case PurgeOrg =>
      if e.working.Some? then e
      else e.(reservations := {}, purged := true, settled := e.settled + e.reservations)
  }

  function Run(actions: seq<Action>): Exports
    decreases |actions|
  {
    if actions == [] then Exports({}, false, None, multiset{}, {}, {})
    else Next(Run(actions[..|actions| - 1]), actions[|actions| - 1])
  }

  ghost predicate Inv(e: Exports) {
    && |e.reservations| <= 1
    && e.reservations <= e.issued && e.settled <= e.issued && e.reservations !! e.settled
    && (forall a | a in e.archives :: e.archives[a] == 1 && a in e.settled)
    && (e.working.Some? ==> e.working.value.admission in e.reservations)
  }

  lemma Fewer(s: set<Guid>, a: Guid)
    ensures |s - {a}| <= |s|
  {
    if a in s { assert |s - {a}| == |s| - 1; } else { assert s - {a} == s; }
  }

  lemma NextKeeps(e: Exports, a: Action)
    requires Inv(e)
    ensures Inv(Next(e, a))
  {
    match a {
      case TryReserve(admission, locked) =>
        if |e.reservations| == 0 { assert e.reservations + {admission} == {admission}; }
      case Begin(admission) => Fewer(e.reservations, admission);
      case Finish(withinBudget) => if e.working.Some? { Fewer(e.reservations, e.working.value.admission); }
      case _ =>
    }
  }

  lemma {:induction false} RunKeeps(actions: seq<Action>)
    ensures Inv(Run(actions))
    decreases |actions|
  {
    if actions != [] {
      hide Inv, Next;
      RunKeeps(actions[..|actions| - 1]);
      NextKeeps(Run(actions[..|actions| - 1]), actions[|actions| - 1]);
    }
  }

  /** One outstanding export at a time, one archive an admission, and none for an admission that is still open. */
  lemma OneArchiveAnAdmission(actions: seq<Action>, a: Guid)
    ensures var e := Run(actions);
      && |e.reservations| <= 1 && e.archives[a] <= 1
      && (a in e.archives ==> a !in e.reservations)
  {
    RunKeeps(actions);
  }

  /** What a handler works on is still reserved: nothing consumed it and nothing replaced it meanwhile. */
  lemma WorkIsReserved(actions: seq<Action>)
    requires Run(actions).working.Some?
    ensures Run(actions).reservations == {Run(actions).working.value.admission}
  {
    RunKeeps(actions);
    var e := Run(actions);
    var a := e.working.value.admission;
    assert |e.reservations - {a}| == |e.reservations| - 1;
  }

  /** The purge waits for the handler, and no handler starts work behind the fence. */
  lemma {:induction false} FenceIsFree(actions: seq<Action>)
    ensures Run(actions).purged ==> Run(actions).working.None?
    decreases |actions|
  {
    if actions != [] { FenceIsFree(actions[..|actions| - 1]); }
  }

  lemma FencedStep(e: Exports, a: Action)
    requires e.purged && e.working.None?
    ensures Next(e, a).purged && Next(e, a).working.None? && Next(e, a).archives == e.archives
  {
  }

  /** After the purge fence no archive appears any more. */
  lemma {:induction false} NoArchiveAfterPurge(before: seq<Action>, after: seq<Action>)
    requires Run(before).purged
    ensures var e := Run(before + after); e.purged && e.working.None? && e.archives == Run(before).archives
    decreases |after|
  {
    hide Next;
    if after == [] {
      assert before + after == before;
      FenceIsFree(before);
    } else {
      var n := |after| - 1;
      assert (before + after)[..|before + after| - 1] == before + after[..n];
      NoArchiveAfterPurge(before, after[..n]);
      FencedStep(Run(before + after[..n]), after[n]);
    }
  }

  // ---------- what an admission comes to ----------

  /** The purge gives back every reservation, and behind its fence a message only gives back its own. */
  lemma PurgeFrees(e: Exports, a: Guid)
    requires e.working.None?
    ensures Next(e, PurgeOrg).reservations == {} && Next(e, PurgeOrg).purged
    ensures e.purged ==> Next(e, Begin(a)).reservations == e.reservations - {a} && Next(e, Begin(a)).working.None?
  {
  }

  /** A new admission is granted exactly while none is outstanding and its lock is free. */
  lemma ReservesExactly(actions: seq<Action>, a: Guid, locked: bool)
    requires a !in Run(actions).issued
    ensures a in Next(Run(actions), TryReserve(a, locked)).reservations <==> locked && Run(actions).reservations == {}
  {
    RunKeeps(actions);
    var e := Run(actions);
    assert |e.reservations| == 0 <==> e.reservations == {};
  }

  /**
   * An admitted export that nobody works on becomes one archive if it fits the budget, none
   * otherwise, and its place is free again.
   */
  lemma ExportCompletes(actions: seq<Action>, a: Guid, fits: bool)
    requires var e := Run(actions); e.working.None? && !e.purged && a in e.reservations
    ensures var e, e' := Run(actions), Next(Next(Run(actions), Begin(a)), Finish(fits));
      && e'.archives == (if fits then e.archives + multiset{a} else e.archives)
      && e'.archives[a] == (if fits then 1 else 0)
      && e'.reservations == {} && e'.working.None?
  {
    RunKeeps(actions);
    var e := Run(actions);
    assert |e.reservations - {a}| == |e.reservations| - 1;
    assert a !in e.archives;
  }
}
