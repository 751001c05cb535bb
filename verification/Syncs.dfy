/**
 * Connector syncs: one outstanding a connector, five an organization. A user or the
 * schedule first reads that the connector exists, without a lock, and then reserves under
 * the capacity lock. The handler holds the connector's lock from its token check to its
 * commit, and so does the deletion of the connector; the purge of the organization, which
 * deletes reservations and connectors together, takes no lock.
 */
module Syncs {
  import opened Basics
  import Admissions

  const MAX_PENDING: nat := Admissions.SYNCS.rows

  /** A handler past its token check; `found` is what its read of the connector gave. */
  datatype Handler = Handler(token: Guid, found: Option<bool>)

  /**
   * A reservation maps its connector to the token of its message; a request is an enqueue
   * that has seen its connector. `known` and `issued` keep new ids fresh, and `synced`
   * counts the committed syncs of each token.
   */
  datatype Syncs = Syncs(
    connectors: set<Guid>,
    known: set<Guid>,
    requests: map<Guid, Guid>,
    reservations: map<Guid, Guid>,
    working: map<Guid, Handler>,
    issued: set<Guid>,
    synced: multiset<Guid>)

  datatype Action =
    | AddConnector(connector: Guid)
    | ReadConnector(request: Guid, connector: Guid)
    | Enqueue(request: Guid, token: Guid, locked: bool)
    | Begin(connector: Guid, token: Guid)
    | Load(connector: Guid)
    | Finish(connector: Guid, staged: bool)
    | Crash(connector: Guid)
    | DeleteConnector(connector: Guid)
    | PurgeOrg

  function Enqueued(s: Syncs, r: Guid, token: Guid, locked: bool): Syncs
    requires r in s.requests
  {
    var c, answered := s.requests[r], s.(requests := s.requests - {r});
    if token in s.issued || !locked || c in s.reservations || |s.reservations| >= MAX_PENDING then answered
    else answered.(reservations := s.reservations[c := token], issued := s.issued + {token})
  }

  /**
   * The handler consumes its connector's reservation whether or not it could stage, also
   * when it found no connector. Staging ends by updating the connector's row: if that is
   * gone, the transaction is rolled back, the consumption with it.
   */
  function Finished(s: Syncs, c: Guid, staged: bool): Syncs
    requires c in s.working && s.working[c].found.Some?
  {
    var h, free := s.working[c], s.(working := s.working - {c});
    if h.found.value && staged then
      if c in s.connectors then
        free.(reservations := s.reservations - {c}, synced := s.synced + multiset{h.token})
      else free
    else free.(reservations := s.reservations - {c})
  }

  function Next(s: Syncs, a: Action): Syncs {
    match a
    case AddConnector(c) => if c in s.known then s else s.(connectors := s.connectors + {c}, known := s.known + {c})
    case ReadConnector(r, c) =>
      if r in s.requests || c !in s.connectors then s else s.(requests := s.requests[r := c])
    case Enqueue(r, token, locked) => if r in s.requests then Enqueued(s, r, token, locked) else s
    case Begin(c, token) =>
      if c in s.working || c !in s.reservations || s.reservations[c] != token then s
      else s.(working := s.working[c := Handler(token, None)])
    case Load(c) =>
      if c !in s.working || s.working[c].found.Some? then s
      else s.(working := s.working[c := s.working[c].(found := Some(c in s.connectors))])
    case Finish(c, staged) => if c in s.working && s.working[c].found.Some? then Finished(s, c, staged) else s
    case Crash(c) => s.(working := s.working - {c})
    case DeleteConnector(c) =>
      if c in s.working || c !in s.connectors then s
      else s.(connectors := s.connectors - {c}, reservations := s.reservations - {c})
    case PurgeOrg => s.(connectors := {}, reservations := map[])
  }

  const START := Syncs({}, {}, map[], map[], map[], {}, multiset{})

  function From(s: Syncs, actions: seq<Action>): Syncs
    decreases |actions|
  {
    if actions == [] then s else Next(From(s, actions[..|actions| - 1]), actions[|actions| - 1])
  }

  function Run(actions: seq<Action>): Syncs { From(START, actions) }

  // ---------- the invariant ----------

  /** A token that may still sync: it was issued, and has not. */
  ghost predicate Unused(s: Syncs, token: Guid) { token in s.issued && s.synced[token] == 0 }

  /** Only of a connector that is gone can the handler's reservation be missing, or another's. */
  ghost predicate HandlerFits(s: Syncs, c: Guid)
    requires c in s.working
  {
    && Unused(s, s.working[c].token)
    && (c in s.connectors ==> c in s.reservations && s.reservations[c] == s.working[c].token)
  }

  ghost predicate Inv(s: Syncs) {
    && |s.reservations| <= MAX_PENDING
    && s.connectors <= s.known && s.reservations.Keys <= s.known && s.working.Keys <= s.known
    && (forall r | r in s.requests :: s.requests[r] in s.known)
    && (forall c | c in s.reservations :: Unused(s, s.reservations[c]))
    && (forall c, d | c in s.reservations && d in s.reservations && s.reservations[c] == s.reservations[d] :: c == d)
    && (forall t | t in s.synced :: t in s.issued && s.synced[t] == 1)
    && (forall c | c in s.working :: HandlerFits(s, c))
    && (forall c, d | c in s.working && d in s.working && s.working[c].token == s.working[d].token :: c == d)
    && (forall c, d | c in s.working && d in s.reservations && s.working[c].token == s.reservations[d] :: c == d)
  }

  /** A request gets its connector's reservation exactly if the lock is free, the connector has none, and fewer than five are out. */
  lemma EnqueuesExactly(s: Syncs, r: Guid, token: Guid, locked: bool)
    requires r in s.requests && token !in s.issued
    ensures var s', c := Next(s, Enqueue(r, token, locked)), s.requests[r];
      && r !in s'.requests
      && if locked && c !in s.reservations && |s.reservations| < 5
         then s'.reservations == s.reservations[c := token] else s'.reservations == s.reservations
  {
  }

  /**
   * A reserved sync of an existing connector that nobody works on runs to its end: it is
   * counted once if it staged, not at all otherwise, and its place is free again.
   */
  lemma SyncCompletes(actions: seq<Action>, c: Guid, staged: bool)
    requires var s := Run(actions); c in s.connectors && c in s.reservations && c !in s.working
    ensures var s := Run(actions);
      var token := s.reservations[c];
      var s' := Next(Next(Next(s, Begin(c, token)), Load(c)), Finish(c, staged));
      && s'.reservations == s.reservations - {c} && s'.working == s.working && s'.connectors == s.connectors
      && s'.synced[token] == (if staged then 1 else 0)
      && forall other | other != token :: s'.synced[other] == s.synced[other]
  {
    RunKeeps(actions);
    var s := Run(actions);
    var token := s.reservations[c];
    hide Run;
    assert Unused(s, token);
    var s1 := Next(s, Begin(c, token));
    assert s1 == s.(working := s.working[c := Handler(token, None)]);
    var s2 := Next(s1, Load(c));
    assert s2 == s.(working := s.working[c := Handler(token, Some(true))]);
    assert s2.working - {c} == s.working;
  }

  lemma Smaller(m: map<Guid, Guid>, k: Guid)
    ensures |m - {k}| <= |m|
  {
    if k in m { assert m == (m - {k})[k := m[k]]; } else { assert m - {k} == m; }
  }

  lemma EnqueueKeeps(s: Syncs, r: Guid, token: Guid, locked: bool)
    requires Inv(s) && r in s.requests
    ensures Inv(Enqueued(s, r, token, locked))
  {
    var s' := Enqueued(s, r, token, locked);
    forall d | d in s'.working ensures HandlerFits(s', d) {
      assert HandlerFits(s, d);
    }
  }

  lemma FinishKeeps(s: Syncs, c: Guid, staged: bool)
    requires Inv(s) && c in s.working && s.working[c].found.Some?
    ensures Inv(Finished(s, c, staged))
  {
    var s' := Finished(s, c, staged);
    Smaller(s.reservations, c);
    assert HandlerFits(s, c);
    forall d | d in s'.working ensures HandlerFits(s', d) {
      assert HandlerFits(s, d);
    }
  }

  lemma DeleteKeeps(s: Syncs, c: Guid)
    requires Inv(s) && c !in s.working && c in s.connectors
    ensures Inv(s.(connectors := s.connectors - {c}, reservations := s.reservations - {c}))
  {
    var s' := s.(connectors := s.connectors - {c}, reservations := s.reservations - {c});
    Smaller(s.reservations, c);
    forall d | d in s'.working ensures HandlerFits(s', d) {
      assert HandlerFits(s, d);
    }
  }

  lemma PurgeKeeps(s: Syncs)
    requires Inv(s)
    ensures Inv(s.(connectors := {}, reservations := map[]))
  {
    var s' := s.(connectors := {}, reservations := map[]);
    forall d | d in s'.working ensures HandlerFits(s', d) {
      assert HandlerFits(s, d);
    }
  }

  lemma BeginKeeps(s: Syncs, c: Guid)
    requires Inv(s) && c !in s.working && c in s.reservations
    ensures Inv(s.(working := s.working[c := Handler(s.reservations[c], None)]))
  {
    var s' := s.(working := s.working[c := Handler(s.reservations[c], None)]);
    forall d | d in s'.working && d in s.working ensures HandlerFits(s', d) {
      assert HandlerFits(s, d);
    }
  }

  lemma HandlersKeep(s: Syncs, a: Action)
    requires Inv(s) && (a.Load? || a.Crash?)
    ensures Inv(Next(s, a))
  {
    var s' := Next(s, a);
    forall d | d in s'.working && d in s.working ensures HandlerFits(s', d) {
      assert HandlerFits(s, d);
    }
  }

  lemma ConnectorsKeep(s: Syncs, a: Action)
    requires Inv(s) && (a.AddConnector? || a.ReadConnector?)
    ensures Inv(Next(s, a))
  {
    var s' := Next(s, a);
    forall d | d in s'.working ensures HandlerFits(s', d) {
      assert HandlerFits(s, d);
    }
  }

  lemma NextKeeps(s: Syncs, a: Action)
    requires Inv(s)
    ensures Inv(Next(s, a))
  {
    hide Inv, Enqueued, Finished;
    match a {
      case Enqueue(r, token, locked) => if r in s.requests { EnqueueKeeps(s, r, token, locked); }
      case Begin(c, token) => if Next(s, a) != s { BeginKeeps(s, c); }
      case Finish(c, staged) => if c in s.working && s.working[c].found.Some? { FinishKeeps(s, c, staged); }
      case DeleteConnector(c) => if c !in s.working && c in s.connectors { DeleteKeeps(s, c); }
      case PurgeOrg => PurgeKeeps(s);
      case AddConnector(_) => ConnectorsKeep(s, a);
      case ReadConnector(_, _) => ConnectorsKeep(s, a);
      case _ => HandlersKeep(s, a);
    }
  }

  lemma {:induction false} FromKeeps(s: Syncs, actions: seq<Action>)
    requires Inv(s)
    ensures Inv(From(s, actions))
    decreases |actions|
  {
    if actions != [] {
      hide Inv, Next;
      FromKeeps(s, actions[..|actions| - 1]);
      NextKeeps(From(s, actions[..|actions| - 1]), actions[|actions| - 1]);
    }
  }

  lemma RunKeeps(actions: seq<Action>)
    ensures Inv(Run(actions))
  {
    assert Inv(START);
    hide Inv;
    FromKeeps(START, actions);
  }

  /** Whatever is duplicated, deleted or purged, each admission has at most one committed sync, and five are outstanding at most. */
  lemma OneSyncAToken(actions: seq<Action>, token: Guid)
    ensures Run(actions).synced[token] <= 1 && |Run(actions).reservations| <= MAX_PENDING
  {
    RunKeeps(actions);
  }

  // ---------- whose reservation a handler consumes ----------

  /** Step `k` of the run inserted connector `c`'s reservation. */
  predicate Admits(actions: seq<Action>, c: Guid, k: nat)
    requires k < |actions|
  {
    var s, a := Run(actions[..k]), actions[k];
    && a.Enqueue? && a.request in s.requests && s.requests[a.request] == c
    && c !in s.reservations && c in Enqueued(s, a.request, a.token, a.locked).reservations
  }

  /** Step `k` of the run saw that connector `c` exists, for the given request. */
  predicate Sees(actions: seq<Action>, request: Guid, c: Guid, k: nat)
    requires k < |actions|
  {
    && actions[k] == ReadConnector(request, c)
    && request !in Run(actions[..k]).requests && c in Run(actions[..k]).connectors
  }

  /** The connector's present handler began in step `b`. */
  ghost predicate BeganAt(actions: seq<Action>, c: Guid, b: nat) {
    && b < |actions| && actions[b].Begin? && actions[b].connector == c && c !in Run(actions[..b]).working
    && forall i | b < i <= |actions| :: c in Run(actions[..i]).working
  }

  predicate PurgedSince(actions: seq<Action>, b: nat) {
    exists p | b < p < |actions| :: actions[p].PurgeOrg?
  }

  /** Step `e` reserved for the connector after the purge in step `p`, and no purge came after that. */
  ghost predicate Requeues(actions: seq<Action>, c: Guid, p: nat, e: nat) {
    && p < e < |actions| && actions[p].PurgeOrg? && Admits(actions, c, e)
    && forall k | e < k < |actions| :: !actions[k].PurgeOrg?
  }

  lemma Prefix(actions: seq<Action>, a: Action)
    ensures var more := actions + [a];
      && Run(more) == Next(Run(actions), a)
      && forall k | 0 <= k <= |actions| :: more[..k] == actions[..k]
  {
    assert (actions + [a])[..|actions|] == actions;
  }

  lemma RequeuesOn(actions: seq<Action>, a: Action, c: Guid, p: nat, e: nat)
    requires p < |actions|
    ensures var more := actions + [a];
      Requeues(more, c, p, e) <==>
        if e == |actions| then actions[p].PurgeOrg? && Admits(more, c, e) else Requeues(actions, c, p, e) && !a.PurgeOrg?
  {
    var more := actions + [a];
    Prefix(actions, a);
    hide Run, Enqueued;
    if e < |actions| { assert more[..e] == actions[..e] && more[e] == actions[e]; }
    if Requeues(more, c, p, e) && e < |actions| {
      assert more[|actions|] == a;
      forall k | e < k < |actions| ensures !actions[k].PurgeOrg? { assert more[k] == actions[k]; }
    }
  }

  ghost predicate Requeued(actions: seq<Action>, c: Guid, b: nat) {
    exists p, e :: b < p && Requeues(actions, c, p, e)
  }

  /** Until a purge the reservation is the handler's own; after it there is one exactly if the connector was enqueued again. */
  ghost predicate Fate(actions: seq<Action>, c: Guid, b: nat) {
    var s := Run(actions);
    && c in s.working
    && if !PurgedSince(actions, b) then c in s.reservations && s.reservations[c] == s.working[c].token
       else (c in s.reservations <==> Requeued(actions, c, b))
            && (c in s.reservations ==> s.reservations[c] != s.working[c].token)
  }

  lemma OtherHandlers(s: Syncs, a: Action, c: Guid)
    requires a.Begin? || a.Load? || a.Finish? || a.Crash?
    requires c in s.working && c in Next(s, a).working
    ensures var s' := Next(s, a);
      && s'.working[c].token == s.working[c].token
      && (c in s'.reservations <==> c in s.reservations) && (c in s'.reservations ==> s'.reservations[c] == s.reservations[c])
  {
  }

  lemma OthersEnqueue(s: Syncs, r: Guid, token: Guid, locked: bool, c: Guid)
    requires r in s.requests
    ensures var s' := Enqueued(s, r, token, locked);
      && s'.working == s.working
      && if c in s.reservations then c in s'.reservations && s'.reservations[c] == s.reservations[c]
         else c in s'.reservations ==> s.requests[r] == c && token !in s.issued && s'.reservations[c] == token
  {
  }

  /** While its handler works, a reservation goes only with a purge and comes only with a fresh token. */
  lemma Undisturbed(s: Syncs, a: Action, c: Guid)
    requires c in s.working && c in Next(s, a).working
    ensures var s' := Next(s, a);
      && s'.working[c].token == s.working[c].token
      && if a.PurgeOrg? then c !in s'.reservations
         else if c in s.reservations then c in s'.reservations && s'.reservations[c] == s.reservations[c]
         else c in s'.reservations ==>
                && a.Enqueue? && a.request in s.requests && s.requests[a.request] == c
                && a.token !in s.issued && s'.reservations[c] == a.token
  {
    hide Finished, Enqueued;
    if a.Begin? || a.Load? || a.Finish? || a.Crash? {
      OtherHandlers(s, a, c);
      hide Next;
    } else if a.Enqueue? && a.request in s.requests {
      OthersEnqueue(s, a.request, a.token, a.locked, c);
    }
  }

  lemma BeganOn(actions: seq<Action>, a: Action, c: Guid, b: nat)
    requires BeganAt(actions + [a], c, b)
    ensures b < |actions| ==> BeganAt(actions, c, b)
    ensures c in Run(actions + [a]).working
  {
    var more := actions + [a];
    Prefix(actions, a);
    hide Run;
    assert more[..|more|] == more;
    if b < |actions| {
      assert more[b] == actions[b];
      forall i | b < i <= |actions| ensures c in Run(actions[..i]).working { assert c in Run(more[..i]).working; }
    }
  }

  lemma PurgedOn(actions: seq<Action>, a: Action, b: nat)
    requires b < |actions|
    ensures PurgedSince(actions + [a], b) <==> PurgedSince(actions, b) || a.PurgeOrg?
  {
    var more := actions + [a];
    if PurgedSince(actions, b) {
      var p :| b < p < |actions| && actions[p].PurgeOrg?;
      assert more[p].PurgeOrg?;
    }
    assert more[|actions|] == a;
  }

  lemma RequeuedOn(actions: seq<Action>, a: Action, c: Guid, b: nat)
    requires b < |actions|
    ensures Requeued(actions + [a], c, b) <==>
              || (Requeued(actions, c, b) && !a.PurgeOrg?)
              || (PurgedSince(actions, b) && Admits(actions + [a], c, |actions|))
  {
    var more := actions + [a];
    hide Requeues, Admits;
    if Requeued(more, c, b) {
      var p: nat, e: nat :| b < p && Requeues(more, c, p, e);
      assert p < e < |more| by { RequeuesBounds(more, c, p, e); }
      RequeuesOn(actions, a, c, p, e);
    }
    if Requeued(actions, c, b) && !a.PurgeOrg? {
      var p: nat, e: nat :| b < p && Requeues(actions, c, p, e);
      assert p < e < |actions| by { RequeuesBounds(actions, c, p, e); }
      RequeuesOn(actions, a, c, p, e);
      assert Requeues(more, c, p, e);
    }
    if PurgedSince(actions, b) && Admits(more, c, |actions|) {
      var p :| b < p < |actions| && actions[p].PurgeOrg?;
      RequeuesOn(actions, a, c, p, |actions|);
      assert Requeues(more, c, p, |actions|);
    }
  }

  lemma RequeuesBounds(actions: seq<Action>, c: Guid, p: nat, e: nat)
    requires Requeues(actions, c, p, e)
    ensures p < e < |actions| && actions[p].PurgeOrg? && Admits(actions, c, e)
  {
  }

  lemma {:induction false} FateHolds(actions: seq<Action>, c: Guid, b: nat)
    requires BeganAt(actions, c, b)
    ensures Fate(actions, c, b)
    decreases |actions|
  {
    var before, a := actions[..|actions| - 1], actions[|actions| - 1];
    assert actions == before + [a];
    Prefix(before, a);
    BeganOn(before, a, c, b);
    if b == |before| {
      assert before == actions[..b];
    } else {
      FateHolds(before, c, b);
      RunKeeps(before);
      Undisturbed(Run(before), a, c);
      PurgedOn(before, a, b);
      RequeuedOn(before, a, c, b);
      FateStep(before, a, c, b);
    }
  }

  lemma FateStep(before: seq<Action>, a: Action, c: Guid, b: nat)
    requires Fate(before, c, b) && Inv(Run(before)) && c in Run(before + [a]).working
    requires Run(before + [a]) == Next(Run(before), a) && (before + [a])[..|before|] == before
    requires PurgedSince(before + [a], b) <==> PurgedSince(before, b) || a.PurgeOrg?
    requires Requeued(before + [a], c, b) <==>
              || (Requeued(before, c, b) && !a.PurgeOrg?)
              || (PurgedSince(before, b) && Admits(before + [a], c, |before|))
    ensures Fate(before + [a], c, b)
  {
    Undisturbed(Run(before), a, c);
    assert HandlerFits(Run(before), c);
    hide Run, Requeued, PurgedSince;
  }

  lemma RequestStep(s: Syncs, a: Action, r: Guid)
    requires r in Next(s, a).requests
    ensures if r in s.requests then Next(s, a).requests[r] == s.requests[r]
            else a == ReadConnector(r, Next(s, a).requests[r]) && Next(s, a).requests[r] in s.connectors
  {
  }

  /** A request was made by reading its connector. */
  lemma {:induction false} RequestsWereMade(actions: seq<Action>, r: Guid)
    requires r in Run(actions).requests
    ensures exists q :: 0 <= q < |actions| && Sees(actions, r, Run(actions).requests[r], q)
    decreases |actions|
  {
    if actions != [] {
      var before, a := actions[..|actions| - 1], actions[|actions| - 1];
      assert actions == before + [a];
      Prefix(before, a);
      hide Run, Next;
      RequestStep(Run(before), a, r);
      var c := Run(actions).requests[r];
      if r in Run(before).requests {
        RequestsWereMade(before, r);
        var q: nat :| 0 <= q < |before| && Sees(before, r, c, q);
        assert before[..q] == actions[..q];
        assert Sees(actions, r, c, q);
      } else {
        assert actions[..|before|] == before;
        assert Sees(actions, r, c, |before|);
      }
    }
  }

  lemma GoneStep(s: Syncs, a: Action, c: Guid)
    requires c in s.known
    ensures c in Next(s, a).known && (c !in s.connectors ==> c !in Next(s, a).connectors)
  {
    hide Finished, Enqueued;
    if a.Finish? && a.connector in s.working && s.working[a.connector].found.Some? { FinishAside(s, a.connector, a.staged); }
    if a.Enqueue? && a.request in s.requests { EnqueueAside(s, a.request, a.token, a.locked); }
  }

  lemma FinishAside(s: Syncs, c: Guid, staged: bool)
    requires c in s.working && s.working[c].found.Some?
    ensures Finished(s, c, staged).known == s.known && Finished(s, c, staged).connectors == s.connectors
  {
  }

  lemma EnqueueAside(s: Syncs, r: Guid, token: Guid, locked: bool)
    requires r in s.requests
    ensures Enqueued(s, r, token, locked).known == s.known && Enqueued(s, r, token, locked).connectors == s.connectors
  {
  }

  /** A connector stays known, and once it is gone it never comes back. */
  lemma {:induction false} GoneStaysGone(s: Syncs, actions: seq<Action>, c: Guid)
    requires c in s.known
    ensures c in From(s, actions).known && (c !in s.connectors ==> c !in From(s, actions).connectors)
    decreases |actions|
  {
    hide Next;
    if actions != [] {
      GoneStaysGone(s, actions[..|actions| - 1], c);
      GoneStep(From(s, actions[..|actions| - 1]), actions[|actions| - 1], c);
    }
  }

  lemma {:induction false} FromOn(s: Syncs, before: seq<Action>, after: seq<Action>)
    ensures From(s, before + after) == From(From(s, before), after)
    decreases |after|
  {
    if after == [] {
      assert before + after == before;
    } else {
      FromOn(s, before, after[..|after| - 1]);
      assert (before + after)[..|before + after| - 1] == before + after[..|after| - 1];
    }
  }

  lemma GoneAfterPurge(actions: seq<Action>, p: nat, q: nat, c: Guid)
    requires p < q <= |actions| && actions[p].PurgeOrg? && c in Run(actions[..p]).known
    ensures c !in Run(actions[..q]).connectors
  {
    var first, rest := actions[..p + 1], actions[p + 1..q];
    assert first == actions[..p] + [actions[p]];
    Prefix(actions[..p], actions[p]);
    hide From;
    FromOn(START, first, rest);
    assert actions[..q] == first + rest;
    GoneStaysGone(Run(first), rest, c);
  }

  /** Whoever enqueues a connector after the purge must have seen it before the purge. */
  lemma SeenBeforePurge(actions: seq<Action>, c: Guid, p: nat, e: nat)
    requires Requeues(actions, c, p, e) && c in Run(actions[..p]).known
    ensures exists q :: 0 <= q < p && Sees(actions, actions[e].request, c, q)
  {
    hide From, Next;
    RequeuesBounds(actions, c, p, e);
    hide Requeues;
    AdmittedRequest(actions, c, e);
    hide Admits, Run;
    var r := actions[e].request;
    RequestsWereMade(actions[..e], r);
    var q: nat :| 0 <= q < e && Sees(actions[..e], r, c, q);
    assert actions[..e][..q] == actions[..q];
    assert Sees(actions, r, c, q);
    if p < q { GoneAfterPurge(actions, p, q, c); }
  }

  lemma AdmittedRequest(actions: seq<Action>, c: Guid, e: nat)
    requires e < |actions| && Admits(actions, c, e)
    ensures actions[e].Enqueue? && actions[e].request in Run(actions[..e]).requests && Run(actions[..e]).requests[actions[e].request] == c
  {
  }

  lemma WorkStep(s: Syncs, a: Action, c: Guid)
    requires c in Next(s, a).working && c !in s.working
    ensures a.Begin? && a.connector == c
  {
  }

  lemma {:induction false} BeganSomewhere(actions: seq<Action>, c: Guid) returns (b: nat)
    requires c in Run(actions).working
    ensures BeganAt(actions, c, b)
    decreases |actions|
  {
    b := 0;
    if actions != [] {
      var before, a := actions[..|actions| - 1], actions[|actions| - 1];
      assert actions == before + [a];
      Prefix(before, a);
      hide Run, Next;
      if c in Run(before).working {
        b := BeganSomewhere(before, c);
      } else {
        WorkStep(Run(before), a, c);
        b := |before|;
      }
      assert actions[..b] == before[..b];
      forall i | b < i <= |actions| ensures c in Run(actions[..i]).working {
        if i <= |before| { assert before[..i] == actions[..i]; } else { assert actions[..i] == actions; }
      }
    }
  }

  /** The finishing handler takes away the reservation of another message. */
  predicate Steals(s: Syncs, c: Guid, staged: bool) {
    && c in s.reservations && c in s.working && s.reservations[c] != s.working[c].token
    && c !in Next(s, Finish(c, staged)).reservations
  }

  lemma StealsIfRequeued(actions: seq<Action>, c: Guid, staged: bool, b: nat)
    requires BeganAt(actions, c, b) && c in Run(actions).working && Run(actions).working[c].found.Some?
    ensures Steals(Run(actions), c, staged) <==> !(Run(actions).working[c].found.value && staged) && Requeued(actions, c, b)
  {
    RunKeeps(actions);
    assert HandlerFits(Run(actions), c);
    FateHolds(actions, c, b);
    if !PurgedSince(actions, b) { UnpurgedIsNotRequeued(actions, c, b); }
    hide Inv, Run, BeganAt, PurgedSince, Requeued;
  }

  /**
   * A handler that finishes takes another token's reservation away exactly if, since it
   * began, the organization was purged and the connector was enqueued again, and it did
   * not get as far as updating the connector. Who enqueued it had seen it before the purge.
   */
  lemma StealsExactlyAfterPurge(actions: seq<Action>, c: Guid, staged: bool)
    requires c in Run(actions).working && Run(actions).working[c].found.Some?
    ensures exists b: nat :: BeganAt(actions, c, b)
    ensures forall b: nat | BeganAt(actions, c, b) ::
              Steals(Run(actions), c, staged) <==> !(Run(actions).working[c].found.value && staged) && Requeued(actions, c, b)
    ensures forall b: nat, p: nat, e: nat | BeganAt(actions, c, b) && b < p && Requeues(actions, c, p, e) ::
              exists q :: 0 <= q < p && Sees(actions, actions[e].request, c, q)
  {
    var start := BeganSomewhere(actions, c);
    forall b: nat | BeganAt(actions, c, b)
      ensures Steals(Run(actions), c, staged) <==> !(Run(actions).working[c].found.value && staged) && Requeued(actions, c, b)
    {
      StealsIfRequeued(actions, c, staged, b);
    }
    hide Run, Steals, Requeued;
    forall b: nat, p: nat, e: nat | BeganAt(actions, c, b) && b < p && Requeues(actions, c, p, e)
      ensures exists q :: 0 <= q < p && Sees(actions, actions[e].request, c, q)
    {
      RequeuesBounds(actions, c, p, e);
      hide Requeues, Admits, Sees;
      assert c in Run(actions[..p]).working;
      WorkingIsKnown(actions[..p], c);
      SeenBeforePurge(actions, c, p, e);
    }
  }

  lemma WorkingIsKnown(actions: seq<Action>, c: Guid)
    requires c in Run(actions).working
    ensures c in Run(actions).known
  {
    RunKeeps(actions);
  }

  lemma UnpurgedIsNotRequeued(actions: seq<Action>, c: Guid, b: nat)
    requires !PurgedSince(actions, b)
    ensures !Requeued(actions, c, b)
  {
  }

  /** Without a purge no handler takes another token's reservation. */
  lemma NothingStolenWithoutPurge(actions: seq<Action>, c: Guid, staged: bool)
    requires forall i | 0 <= i < |actions| :: !actions[i].PurgeOrg?
    ensures !Steals(Run(actions), c, staged)
  {
    hide Run;
    if c in Run(actions).working && Run(actions).working[c].found.Some? {
      StealsExactlyAfterPurge(actions, c, staged);
      var b: nat :| BeganAt(actions, c, b);
      UnpurgedIsNotRequeued(actions, c, b);
    }
  }

  /** Message `token` belongs to a connector that is gone. */
  ghost predicate Dead(s: Syncs, c: Guid, token: Guid) {
    && c in s.known && c !in s.connectors && token in s.issued
    && (forall d | d in s.reservations && s.reservations[d] == token :: d == c)
    && (forall d | d in s.working && s.working[d].token == token :: d == c)
  }

  lemma DeadFinish(s: Syncs, d: Guid, staged: bool, c: Guid, token: Guid)
    requires Dead(s, c, token) && d in s.working && s.working[d].found.Some?
    ensures Dead(Finished(s, d, staged), c, token) && Finished(s, d, staged).synced[token] == s.synced[token]
  {
  }

  lemma DeadEnqueue(s: Syncs, r: Guid, other: Guid, locked: bool, c: Guid, token: Guid)
    requires Dead(s, c, token) && r in s.requests
    ensures Dead(Enqueued(s, r, other, locked), c, token) && Enqueued(s, r, other, locked).synced == s.synced
  {
  }

  lemma DeadStep(s: Syncs, a: Action, c: Guid, token: Guid)
    requires Dead(s, c, token)
    ensures Dead(Next(s, a), c, token) && Next(s, a).synced[token] == s.synced[token]
  {
    hide Finished, Enqueued;
    if a.Finish? && a.connector in s.working && s.working[a.connector].found.Some? { DeadFinish(s, a.connector, a.staged, c, token); }
    if a.Enqueue? && a.request in s.requests { DeadEnqueue(s, a.request, a.token, a.locked, c, token); }
  }

  lemma {:induction false} DeadNeverSyncs(s: Syncs, actions: seq<Action>, c: Guid, token: Guid)
    requires Dead(s, c, token)
    ensures Dead(From(s, actions), c, token) && From(s, actions).synced[token] == s.synced[token]
    decreases |actions|
  {
    hide Dead, Next;
    if actions != [] {
      var before := actions[..|actions| - 1];
      DeadNeverSyncs(s, before, c, token);
      DeadStep(From(s, before), actions[|actions| - 1], c, token);
    }
  }

  /**
   * What is stolen is worth nothing: its connector is gone, and however the run had gone
   * on, with the reservation or without it, its message would not have synced.
   */
  lemma StolenWasDead(actions: seq<Action>, c: Guid, staged: bool, more: seq<Action>)
    requires Steals(Run(actions), c, staged)
    ensures var s := Run(actions);
      && c !in s.connectors
      && From(s, more).synced[s.reservations[c]] == 0
      && From(Next(s, Finish(c, staged)), more).synced[s.reservations[c]] == 0
  {
    RunKeeps(actions);
    var s := Run(actions);
    assert HandlerFits(s, c);
    var token := s.reservations[c];
    DeadStep(s, Finish(c, staged), c, token);
    DeadNeverSyncs(s, more, c, token);
    DeadNeverSyncs(Next(s, Finish(c, staged)), more, c, token);
  }

  /** The reservation of a connector that exists goes only with its own handler's end, the connector's deletion, or a purge. */
  lemma LiveReservationStays(actions: seq<Action>, a: Action, c: Guid)
    requires var s := Run(actions); c in s.connectors && c in s.reservations
    requires !a.PurgeOrg? && a != DeleteConnector(c)
    ensures var s, s' := Run(actions), Next(Run(actions), a);
      if c in s'.reservations then s'.reservations[c] == s.reservations[c]
      else a.Finish? && a.connector == c && c in s.working && s.working[c].token == s.reservations[c]
  {
    RunKeeps(actions);
    if c in Run(actions).working { assert HandlerFits(Run(actions), c); }
  }

  lemma Then(actions: seq<Action>, a: Action, s: Syncs, s': Syncs)
    requires Run(actions) == s && Next(s, a) == s'
    ensures Run(actions + [a]) == s'
  {
    Prefix(actions, a);
  }

  const SEEN := START.(connectors := {1}, known := {1}, requests := map[7 := 1, 8 := 1])
  const QUEUED := SEEN.(requests := map[8 := 1], reservations := map[1 := 10], issued := {10})
  const FETCHING := QUEUED.(working := map[1 := Handler(10, Some(true))])
  const REQUEUED := FETCHING.(connectors := {}, requests := map[], reservations := map[1 := 11], issued := {10, 11})

  lemma SeenTwice() returns (actions: seq<Action>)
    ensures Run(actions) == SEEN
  {
    actions := [];
    var one := START.(connectors := {1}, known := {1});
    Then(actions, AddConnector(1), START, one);
    Then(actions + [AddConnector(1)], ReadConnector(7, 1), one, one.(requests := map[7 := 1]));
    actions := actions + [AddConnector(1)] + [ReadConnector(7, 1)];
    Then(actions, ReadConnector(8, 1), one.(requests := map[7 := 1]), SEEN);
    actions := actions + [ReadConnector(8, 1)];
  }

  lemma Fetching() returns (actions: seq<Action>)
    ensures Run(actions) == FETCHING
  {
    actions := SeenTwice();
    hide Run;
    Then(actions, Enqueue(7, 10, true), SEEN, QUEUED);
    actions := actions + [Enqueue(7, 10, true)];
    Then(actions, Begin(1, 10), QUEUED, QUEUED.(working := map[1 := Handler(10, None)]));
    actions := actions + [Begin(1, 10)];
    Then(actions, Load(1), QUEUED.(working := map[1 := Handler(10, None)]), FETCHING);
    actions := actions + [Load(1)];
  }

  lemma Requeued11() returns (actions: seq<Action>)
    ensures Run(actions) == REQUEUED
  {
    actions := Fetching();
    hide Run;
    var purged := FETCHING.(connectors := {}, reservations := map[]);
    Then(actions, PurgeOrg, FETCHING, purged);
    actions := actions + [PurgeOrg];
    Then(actions, Enqueue(8, 11, true), purged, REQUEUED);
    actions := actions + [Enqueue(8, 11, true)];
  }

  /**
   * Connector 1 is seen by two requests and enqueued by the first with token 10. The
   * organization is purged while token 10 is handled; then the second request enqueues
   * token 11. The handler, whose fetch failed, consumes token 11's reservation, so that
   * token 11's message is dropped.
   */
  lemma PurgeTakesAReservation()
    ensures exists actions ::
              && Steals(Run(actions), 1, false) && Run(actions).reservations[1] == 11
              && Next(Next(Run(actions), Finish(1, false)), Begin(1, 11)) == Next(Run(actions), Finish(1, false))
  {
    var actions := Requeued11();
    hide Run;
    assert Steals(Run(actions), 1, false);
  }
}
