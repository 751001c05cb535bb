/**
 * Webhook deliveries. An admitted delivery is a chain of at most five attempts; its
 * reservation lives exactly as long as the chain, whatever happens to the endpoint.
 * A message is consumed in the transaction that handles it.
 */
module Webhooks {
  import opened Basics
  import Admissions

  const MAX_ATTEMPTS: nat := 5
  const MAX_PENDING: nat := Admissions.DELIVERIES.rows

  datatype Delivery = Delivery(endpoint: Guid, attempt: nat, admission: Guid)

  /** Endpoints with their active flag, reservations with their endpoint, and the messages in flight. */
  datatype Tables = Tables(
    endpoints: map<Guid, bool>,
    reservations: map<Guid, Guid>,
    inFlight: multiset<Delivery>)

  /** Identifiers used so far, and the attempts made for each admission. */
  datatype History = History(endpoints: set<Guid>, attempts: map<Guid, nat>)

  datatype Webhooks = Webhooks(tables: Tables, past: History)

  datatype Action =
    | AddEndpoint(endpoint: Guid)
    | SetActive(endpoint: Guid, active: bool)
    | DeleteEndpoint(endpoint: Guid)
    | Enqueue(endpoint: Guid, admission: Guid, locked: bool)
    | Handle(message: Delivery, ok: bool)
    | PurgeOrg

  // ---------- the transactions ----------

  /** Admission needs the capacity lock and room; it reserves and publishes the first attempt. */
  function Enqueued(t: Tables, endpoint: Guid, admission: Guid, locked: bool): Tables {
    if !locked || |t.reservations| >= MAX_PENDING then t
    else
      t.(reservations := t.reservations[admission := endpoint],
      inFlight := t.inFlight + multiset{Delivery(endpoint, 1, admission)})
  }

  /** One attempt; a missing or paused endpoint drops the chain and gives the reservation back. */
  function Handled(t: Tables, m: Delivery, ok: bool): Tables {
    var rest := t.inFlight - multiset{m};
    if m.endpoint !in t.endpoints || !t.endpoints[m.endpoint] || ok || m.attempt >= MAX_ATTEMPTS then
      t.(inFlight := rest, reservations := t.reservations - {m.admission})
    else
      t.(inFlight := rest + multiset{m.(attempt := m.attempt + 1)})
  }

  function Deleted(t: Tables, endpoint: Guid): Tables {
    t.(endpoints := t.endpoints - {endpoint},
    reservations := map a | a in t.reservations && t.reservations[a] != endpoint :: t.reservations[a])
  }

  function Next(w: Webhooks, a: Action): Webhooks {
    var t := w.tables;
    match a
    case AddEndpoint(endpoint) =>
      if endpoint in w.past.endpoints then w
      else
        Webhooks(t.(endpoints := t.endpoints[endpoint := true]), w.past.(endpoints := w.past.endpoints + {endpoint}))
    case SetActive(endpoint, active) =>
      if endpoint !in t.endpoints then w else w.(tables := t.(endpoints := t.endpoints[endpoint := active]))
    case DeleteEndpoint(endpoint) => if endpoint !in t.endpoints then w else w.(tables := Deleted(t, endpoint))
    case Enqueue(endpoint, admission, locked) =>
      if endpoint !in w.past.endpoints || admission in w.past.attempts then w
      else
        Webhooks(Enqueued(t, endpoint, admission, locked), w.past.(attempts := w.past.attempts[admission := 0]))
    case Handle(m, ok) =>
      if m !in t.inFlight || m.admission !in w.past.attempts then w
      else
        Webhooks(Handled(t, m, ok), w.past.(attempts := w.past.attempts[m.admission := w.past.attempts[m.admission] + 1]))
    case PurgeOrg => w.(tables := t.(endpoints := map[], reservations := map[]))
  }

  function Run(actions: seq<Action>): Webhooks
    decreases |actions|
  {
    if actions == [] then Webhooks(Tables(map[], map[], multiset{}), History({}, map[]))
    else Next(Run(actions[..|actions| - 1]), actions[|actions| - 1])
  }

  // ---------- the invariant ----------

  ghost predicate MessageFits(w: Webhooks, m: Delivery) {
    && w.tables.inFlight[m] == 1 && 1 <= m.attempt <= MAX_ATTEMPTS
    && m.endpoint in w.past.endpoints
    && m.admission in w.past.attempts && w.past.attempts[m.admission] == m.attempt - 1
    && (m.endpoint in w.tables.endpoints ==> m.admission in w.tables.reservations)
  }

  /** Some message in flight carries the reservation. */
  ghost predicate Carried(t: Tables, a: Guid)
    requires a in t.reservations
  {
    exists m :: m in t.inFlight && m.admission == a && m.endpoint == t.reservations[a]
  }

  ghost predicate OneChainEach(inFlight: multiset<Delivery>) {
    forall m, n | m in inFlight && n in inFlight && m.admission == n.admission :: m == n
  }

  ghost predicate Inv(w: Webhooks) {
    var t := w.tables;
    && |t.reservations| <= MAX_PENDING
    && (forall e | e in t.endpoints :: e in w.past.endpoints)
    && (forall m | m in t.inFlight :: MessageFits(w, m))
    && OneChainEach(t.inFlight)
    && (forall a | a in t.reservations :: a in w.past.attempts && Carried(t, a))
    && (forall a | a in w.past.attempts :: w.past.attempts[a] <= MAX_ATTEMPTS)
  }

  lemma SmallerMap<K, V>(small: map<K, V>, big: map<K, V>)
    requires small.Keys <= big.Keys
    ensures |small| <= |big|
  {
    assert big.Keys == small.Keys + (big.Keys - small.Keys);
    assert |small.Keys| == |small| && |big.Keys| == |big|;
  }

  lemma EnqueueKeeps(w: Webhooks, endpoint: Guid, admission: Guid, locked: bool)
    requires Inv(w)
    ensures Inv(Next(w, Enqueue(endpoint, admission, locked)))
  {
    var w' := Next(w, Enqueue(endpoint, admission, locked));
    EnqueueMessages(w, endpoint, admission, locked);
    forall a | a in w'.tables.reservations ensures a in w'.past.attempts && Carried(w'.tables, a) {
      if a in w.tables.reservations {
        var m :| m in w.tables.inFlight && m.admission == a && m.endpoint == w.tables.reservations[a];
        assert m in w'.tables.inFlight;
      } else {
        assert Delivery(endpoint, 1, admission) in w'.tables.inFlight;
      }
    }
    hide MessageFits, OneChainEach, Carried;
  }

  lemma EnqueueMessages(w: Webhooks, endpoint: Guid, admission: Guid, locked: bool)
    requires Inv(w)
    ensures var w' := Next(w, Enqueue(endpoint, admission, locked));
      OneChainEach(w'.tables.inFlight) && forall m | m in w'.tables.inFlight :: MessageFits(w', m)
  {
    hide Carried;
    var w' := Next(w, Enqueue(endpoint, admission, locked));
    forall m | m in w.tables.inFlight ensures m.admission in w.past.attempts {
      assert MessageFits(w, m);
    }
    forall m | m in w'.tables.inFlight ensures MessageFits(w', m) {
      if m in w.tables.inFlight { assert MessageFits(w, m); }
    }
  }

  lemma EndMessages(w: Webhooks, m: Delivery, w': Webhooks)
    requires Inv(w) && m in w.tables.inFlight && m.admission in w.past.attempts
    requires w'.tables == w.tables.(inFlight := w.tables.inFlight - multiset{m}, reservations := w.tables.reservations - {m.admission})
    requires w'.past == w.past.(attempts := w.past.attempts[m.admission := w.past.attempts[m.admission] + 1])
    ensures forall n | n in w'.tables.inFlight :: n in w.tables.inFlight && n.admission != m.admission && MessageFits(w', n)
    ensures w'.past.attempts[m.admission] <= MAX_ATTEMPTS
  {
    hide Carried;
    assert MessageFits(w, m);
    forall n | n in w'.tables.inFlight ensures n in w.tables.inFlight && n.admission != m.admission && MessageFits(w', n) {
      assert MessageFits(w, n);
    }
  }

  lemma EndCarried(t: Tables, m: Delivery, t': Tables)
    requires forall a | a in t.reservations :: Carried(t, a)
    requires OneChainEach(t.inFlight) && m in t.inFlight
    requires t' == t.(inFlight := t.inFlight - multiset{m}, reservations := t.reservations - {m.admission})
    ensures OneChainEach(t'.inFlight) && forall a | a in t'.reservations :: Carried(t', a)
  {
    forall a | a in t'.reservations ensures Carried(t', a) {
      assert Carried(t, a);
      var n :| n in t.inFlight && n.admission == a && n.endpoint == t.reservations[a];
      assert n in t'.inFlight;
    }
  }

  /** The chain's last message goes, and with it the reservation. */
  lemma EndKeeps(w: Webhooks, m: Delivery, w': Webhooks)
    requires Inv(w) && m in w.tables.inFlight && m.admission in w.past.attempts
    requires w'.tables == w.tables.(inFlight := w.tables.inFlight - multiset{m}, reservations := w.tables.reservations - {m.admission})
    requires w'.past == w.past.(attempts := w.past.attempts[m.admission := w.past.attempts[m.admission] + 1])
    ensures Inv(w')
  {
    EndMessages(w, m, w');
    EndCarried(w.tables, m, w'.tables);
    hide MessageFits, Carried, OneChainEach;
    SmallerMap(w'.tables.reservations, w.tables.reservations);
  }

  lemma RetryMessages(w: Webhooks, m: Delivery, w': Webhooks)
    requires Inv(w) && m in w.tables.inFlight && m.admission in w.past.attempts && m.attempt < MAX_ATTEMPTS
    requires w'.tables == w.tables.(inFlight := w.tables.inFlight - multiset{m} + multiset{m.(attempt := m.attempt + 1)})
    requires w'.past == w.past.(attempts := w.past.attempts[m.admission := w.past.attempts[m.admission] + 1])
    ensures OneChainEach(w'.tables.inFlight) && forall n | n in w'.tables.inFlight :: MessageFits(w', n)
    ensures w'.past.attempts[m.admission] <= MAX_ATTEMPTS
  {
    hide Carried;
    assert MessageFits(w, m);
    var next := m.(attempt := m.attempt + 1);
    forall n | n in w'.tables.inFlight ensures n == next || (n in w.tables.inFlight && n.admission != m.admission) {
    }
    forall n | n in w'.tables.inFlight ensures MessageFits(w', n) {
      if n != next { assert MessageFits(w, n); }
    }
  }

  lemma RetryCarried(t: Tables, m: Delivery, t': Tables)
    requires forall a | a in t.reservations :: Carried(t, a)
    requires m in t.inFlight
    requires t' == t.(inFlight := t.inFlight - multiset{m} + multiset{m.(attempt := m.attempt + 1)})
    ensures forall a | a in t'.reservations :: Carried(t', a)
  {
    forall a | a in t'.reservations ensures Carried(t', a) {
      assert Carried(t, a);
      var n :| n in t.inFlight && n.admission == a && n.endpoint == t.reservations[a];
      assert (if n == m then m.(attempt := m.attempt + 1) else n) in t'.inFlight;
    }
  }

  /** The chain goes on with its next attempt. */
  lemma RetryKeeps(w: Webhooks, m: Delivery, w': Webhooks)
    requires Inv(w) && m in w.tables.inFlight && m.admission in w.past.attempts && m.attempt < MAX_ATTEMPTS
    requires w'.tables == w.tables.(inFlight := w.tables.inFlight - multiset{m} + multiset{m.(attempt := m.attempt + 1)})
    requires w'.past == w.past.(attempts := w.past.attempts[m.admission := w.past.attempts[m.admission] + 1])
    ensures Inv(w')
  {
    RetryMessages(w, m, w');
    RetryCarried(w.tables, m, w'.tables);
    hide MessageFits, Carried, OneChainEach;
  }

  lemma HandleKeeps(w: Webhooks, m: Delivery, ok: bool)
    requires Inv(w)
    ensures Inv(Next(w, Handle(m, ok)))
  {
    hide Inv;
    var t := w.tables;
    if m in t.inFlight && m.admission in w.past.attempts {
      if m.endpoint !in t.endpoints || !t.endpoints[m.endpoint] || ok || m.attempt >= MAX_ATTEMPTS {
        EndKeeps(w, m, Next(w, Handle(m, ok)));
      } else {
        RetryKeeps(w, m, Next(w, Handle(m, ok)));
      }
    }
  }

  lemma DeleteKeeps(w: Webhooks, endpoint: Guid)
    requires Inv(w)
    ensures Inv(Next(w, DeleteEndpoint(endpoint)))
  {
    var w' := Next(w, DeleteEndpoint(endpoint));
    SmallerMap(w'.tables.reservations, w.tables.reservations);
    forall m | m in w'.tables.inFlight ensures MessageFits(w', m) {
      assert MessageFits(w, m);
      if m.endpoint in w'.tables.endpoints {
        var n :| n in w.tables.inFlight && n.admission == m.admission && n.endpoint == w.tables.reservations[m.admission];
        assert n == m;
      }
    }
  }

  lemma NextKeeps(w: Webhooks, a: Action)
    requires Inv(w)
    ensures Inv(Next(w, a))
  {
    match a {
      case Enqueue(endpoint, admission, locked) => EnqueueKeeps(w, endpoint, admission, locked);
      case Handle(m, ok) => HandleKeeps(w, m, ok);
      case DeleteEndpoint(endpoint) => DeleteKeeps(w, endpoint);
      case _ =>
        var w' := Next(w, a);
        forall m | m in w'.tables.inFlight ensures MessageFits(w', m) {
          assert MessageFits(w, m);
        }
    }
  }

  lemma {:induction false} RunKeeps(actions: seq<Action>)
    ensures Inv(Run(actions))
    decreases |actions|
  {
    if actions != [] {
      hide Inv, Next;
      RunKeeps(actions[..|actions| - 1]);
      NextKeeps(Run(actions[..|actions| - 1]), actions[|actions| - 1]);
    } else {
      assert Run(actions).tables.inFlight == multiset{};
    }
  }

  // ---------- what it means ----------

  /** The messages of one admission. */
  ghost predicate OnlyMessage(t: Tables, admission: Guid, m: Delivery) {
    && m in t.inFlight && t.inFlight[m] == 1 && m.admission == admission
    && forall n | n in t.inFlight && n.admission == admission :: n == m
  }

  /**
   * At most a hundred reservations; each belongs to exactly one delivery chain; and each
   * chain of an existing endpoint still has its reservation.
   */
  lemma AdmissionsAreConserved(actions: seq<Action>)
    ensures var t := Run(actions).tables;
      && |t.reservations| <= MAX_PENDING
      && (forall a | a in t.reservations :: exists m :: OnlyMessage(t, a, m) && m.endpoint == t.reservations[a])
      && (forall m | m in t.inFlight && m.endpoint in t.endpoints :: m.admission in t.reservations && OnlyMessage(t, m.admission, m))
  {
    RunKeeps(actions);
    var w := Run(actions);
    forall a | a in w.tables.reservations ensures exists m :: OnlyMessage(w.tables, a, m) && m.endpoint == w.tables.reservations[a] {
      var m :| m in w.tables.inFlight && m.admission == a && m.endpoint == w.tables.reservations[a];
      assert MessageFits(w, m);
      assert OnlyMessage(w.tables, a, m);
    }
    forall m | m in w.tables.inFlight && m.endpoint in w.tables.endpoints
      ensures m.admission in w.tables.reservations && OnlyMessage(w.tables, m.admission, m)
    {
      assert MessageFits(w, m);
    }
  }

  /** No admission is attempted more than five times, and once its chain is over its reservation is gone. */
  lemma ChainsEnd(actions: seq<Action>, a: Guid)
    requires a in Run(actions).past.attempts
    ensures var w := Run(actions);
      && w.past.attempts[a] <= MAX_ATTEMPTS
      && ((forall m | m in w.tables.inFlight :: m.admission != a) ==> a !in w.tables.reservations)
      && (w.past.attempts[a] == MAX_ATTEMPTS ==> forall m | m in w.tables.inFlight :: m.admission != a)
  {
    RunKeeps(actions);
    var w := Run(actions);
    forall m | m in w.tables.inFlight ensures MessageFits(w, m) {
    }
  }

  /** Everything but what belongs to the admission is as it was. */
  ghost predicate OthersUntouched(t: Tables, t': Tables, admission: Guid) {
    && t'.endpoints == t.endpoints
    && (forall n: Delivery | n.admission != admission :: t'.inFlight[n] == t.inFlight[n])
    && (forall a | a != admission :: a in t'.reservations <==> a in t.reservations)
    && (forall a | a != admission && a in t.reservations :: t'.reservations[a] == t.reservations[a])
  }

  /**
   * A failed attempt below the fifth, at an endpoint that exists and is active, leaves
   * exactly the next attempt in flight and the reservation in place; any other attempt,
   * a successful one first of all, ends the chain and gives the reservation back.
   */
  lemma HandledExactly(actions: seq<Action>, m: Delivery, ok: bool)
    requires m in Run(actions).tables.inFlight
    ensures var t, t' := Run(actions).tables, Next(Run(actions), Handle(m, ok)).tables;
      && OthersUntouched(t, t', m.admission)
      && if !ok && m.endpoint in t.endpoints && t.endpoints[m.endpoint] && m.attempt < 5 then
           OnlyMessage(t', m.admission, Delivery(m.endpoint, m.attempt + 1, m.admission)) && m.admission in t'.reservations
         else
           (forall n | n in t'.inFlight :: n.admission != m.admission) && m.admission !in t'.reservations
  {
    RunKeeps(actions);
    var w := Run(actions);
    hide Run, Carried, OnlyMessage, OthersUntouched;
    assert MessageFits(w, m) && OneChainEach(w.tables.inFlight);
    HandledAside(w.tables, m, ok);
    HandledChain(w.tables, m, ok);
    hide Handled;
  }

  lemma HandledAside(t: Tables, m: Delivery, ok: bool)
    requires m in t.inFlight
    ensures OthersUntouched(t, Handled(t, m, ok), m.admission)
  {
  }

  lemma HandledChain(t: Tables, m: Delivery, ok: bool)
    requires m in t.inFlight && t.inFlight[m] == 1 && OneChainEach(t.inFlight)
    requires m.endpoint in t.endpoints ==> m.admission in t.reservations
    ensures var t' := Handled(t, m, ok);
      if !ok && m.endpoint in t.endpoints && t.endpoints[m.endpoint] && m.attempt < 5 then
        OnlyMessage(t', m.admission, Delivery(m.endpoint, m.attempt + 1, m.admission)) && m.admission in t'.reservations
      else
        (forall n | n in t'.inFlight :: n.admission != m.admission) && m.admission !in t'.reservations
  {
    var t' := Handled(t, m, ok);
    forall n | n in t'.inFlight && n.admission == m.admission ensures n == Delivery(m.endpoint, m.attempt + 1, m.admission) {
    }
  }

  // ---------- the tables, updated in place ----------

  class WebhookTables {
    var endpoints: map<Guid, bool>
    var reservations: map<Guid, Guid>
    var inFlight: multiset<Delivery>

    ghost function Contents(): Tables
      reads this
    {
      Tables(endpoints, reservations, inFlight)
    }

    constructor ()
      ensures Contents() == Tables(map[], map[], multiset{})
    {
      endpoints, reservations, inFlight := map[], map[], multiset{};
    }

    method EnqueueDelivery(endpoint: Guid, admission: Guid, locked: bool) returns (ok: bool)
      modifies this
      ensures ok <==> locked && |old(reservations)| < 100
      ensures Contents() == Enqueued(old(Contents()), endpoint, admission, locked)
      ensures ok ==> reservations == old(reservations)[admission := endpoint]
                     && inFlight == old(inFlight) + multiset{Delivery(endpoint, 1, admission)}
    {
      if !locked || |reservations| >= MAX_PENDING { return false; }
      reservations := reservations[admission := endpoint];
      inFlight := inFlight + multiset{Delivery(endpoint, 1, admission)};
      ok := true;
    }

    method HandleDelivery(m: Delivery, ok: bool)
      requires m in inFlight
      modifies this
      ensures Contents() == Handled(old(Contents()), m, ok)
      ensures if !ok && m.endpoint in endpoints && endpoints[m.endpoint] && m.attempt < 5 then
                reservations == old(reservations)
                && inFlight == old(inFlight) - multiset{m} + multiset{Delivery(m.endpoint, m.attempt + 1, m.admission)}
              else reservations == old(reservations) - {m.admission} && inFlight == old(inFlight) - multiset{m}
    {
      inFlight := inFlight - multiset{m};
      if m.endpoint !in endpoints || !endpoints[m.endpoint] {
        reservations := reservations - {m.admission};
        return;
      }
      if ok || m.attempt >= MAX_ATTEMPTS { reservations := reservations - {m.admission}; }
      if !ok && m.attempt < MAX_ATTEMPTS { inFlight := inFlight + multiset{m.(attempt := m.attempt + 1)}; }
    }

    method Delete(endpoint: Guid) returns (found: bool)
      modifies this
      ensures found <==> endpoint in old(endpoints)
      ensures Contents() == if found then Deleted(old(Contents()), endpoint) else old(Contents())
      ensures found ==> endpoint !in endpoints && forall a :: a in reservations <==> a in old(reservations) && old(reservations)[a] != endpoint
    {
      if endpoint !in endpoints { return false; }
      reservations := map a | a in reservations && reservations[a] != endpoint :: reservations[a];
      endpoints := endpoints - {endpoint};
      found := true;
    }
  }
}
