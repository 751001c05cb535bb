/**
 * Strict admission. A transaction that wants capacity takes a lock that is held until
 * it commits, counts, checks and inserts; other transactions delete rows at any time
 * without the lock. One gate admits webhook deliveries, connector syncs, exports, and
 * uploads by number and by size; ReportAdmission is the gate of report runs, with two locks.
 */
module Admissions {
  import opened Basics
  import opened Totals

  /** What may be outstanding at once: rows, and their total weight where that is limited. */
  datatype Bounds = Bounds(rows: nat, weight: Option<nat>)

  const DELIVERIES := Bounds(100, None)
  const SYNCS := Bounds(5, None)
  const EXPORTS := Bounds(1, None)
  const UPLOADS := Bounds(20, Some(500 * 1024 * 1024))

  /** A transaction's own uncommitted rows, and what its two queries last counted, its own rows included. */
  datatype Txn = Txn(pending: map<Guid, nat>, rows: Option<nat>, weight: Option<nat>)

  /** Committed rows with their weights, the open transactions, and who holds the lock. */
  datatype Gate = Gate(bounds: Bounds, rows: map<Guid, nat>, open: map<Guid, Txn>, holder: Option<Guid>)

  datatype Step =
    | Begin(txn: Guid)
    | TryLock(txn: Guid)
    | CountRows(txn: Guid)
    | SumWeights(txn: Guid)
    | Insert(txn: Guid, batch: map<Guid, nat>)
    | Commit(txn: Guid)
    | Abort(txn: Guid)
    | Remove(row: Guid)

  function Close(g: Gate, t: Guid): Gate {
    g.(open := g.open - {t}, holder := if g.holder == Some(t) then None else g.holder)
  }

  /** The check a transaction makes on what it counted. */
  ghost predicate HasRoom(bounds: Bounds, txn: Txn, batch: map<Guid, nat>) {
    && txn.rows.Some? && txn.rows.value + |batch| <= bounds.rows
    && (bounds.weight.Some? ==> txn.weight.Some? && txn.weight.value + Total(batch) <= bounds.weight.value)
  }

  /** An insert without room is refused; one that meets a row that is already there breaks the primary key. */
  ghost function Inserted(g: Gate, t: Guid, batch: map<Guid, nat>): Gate
    requires t in g.open
  {
    if !HasRoom(g.bounds, g.open[t], batch) then g
    else if !(batch.Keys !! g.rows.Keys + g.open[t].pending.Keys) then Close(g, t)
    else g.(open := g.open[t := Txn(g.open[t].pending + batch, None, None)])
  }

  /** A step that is not possible, or is refused, changes nothing; its transaction may go on or abort. */
  ghost function Next(g: Gate, s: Step): Gate {
    match s
    case Begin(t) => if t in g.open then g else g.(open := g.open[t := Txn(map[], None, None)])
    case TryLock(t) => if t !in g.open || g.holder.Some? then g else g.(holder := Some(t))
    case CountRows(t) =>
      if t !in g.open || g.holder != Some(t) then g
      else g.(open := g.open[t := g.open[t].(rows := Some(|g.rows| + |g.open[t].pending|))])
    case SumWeights(t) =>
      if t !in g.open || g.holder != Some(t) then g
      else g.(open := g.open[t := g.open[t].(weight := Some(Total(g.rows) + Total(g.open[t].pending)))])
    case Insert(t, batch) => if t in g.open then Inserted(g, t, batch) else g
    case Commit(t) => if t in g.open then Close(g.(rows := g.rows + g.open[t].pending), t) else g
    case Abort(t) => if t in g.open then Close(g, t) else g
    case Remove(row) => g.(rows := g.rows - {row})
  }

  ghost function Run(bounds: Bounds, steps: seq<Step>): Gate
    decreases |steps|
  {
    if steps == [] then Gate(bounds, map[], map[], None)
    else Next(Run(bounds, steps[..|steps| - 1]), steps[|steps| - 1])
  }

  /** Rows and weights of two disjoint tables together are within the bounds. */
  ghost predicate Within(bounds: Bounds, rows: map<Guid, nat>, more: map<Guid, nat>) {
    && |rows| + |more| <= bounds.rows
    && (bounds.weight.Some? ==> Total(rows) + Total(more) <= bounds.weight.value)
  }

  /** Only the lock's holder has counted or inserted anything, and a count can only have become too high. */
  ghost predicate TxnFits(g: Gate, t: Guid)
    requires t in g.open
  {
    var txn := g.open[t];
    && (g.holder != Some(t) ==> txn == Txn(map[], None, None))
    && Within(g.bounds, g.rows, txn.pending)
    && (txn.rows.Some? ==> |g.rows| + |txn.pending| <= txn.rows.value)
    && (txn.weight.Some? ==> Total(g.rows) + Total(txn.pending) <= txn.weight.value)
    && txn.pending.Keys !! g.rows.Keys
  }

  ghost predicate Inv(g: Gate) {
    && Within(g.bounds, g.rows, map[])
    && (g.holder.Some? ==> g.holder.value in g.open)
    && forall t | t in g.open :: TxnFits(g, t)
  }

  lemma EmptyTotal()
    ensures Total(map[]) == 0
  {
  }

  lemma UnionSize(rows: map<Guid, nat>, more: map<Guid, nat>)
    requires rows.Keys !! more.Keys
    ensures |rows + more| == |rows| + |more|
  {
    assert (rows + more).Keys == rows.Keys + more.Keys;
    assert |rows.Keys + more.Keys| == |rows.Keys| + |more.Keys|;
    assert |(rows + more).Keys| == |rows + more| && |rows.Keys| == |rows| && |more.Keys| == |more|;
  }

  lemma FewerRows(rows: map<Guid, nat>, row: Guid)
    ensures |rows - {row}| <= |rows| && Total(rows - {row}) <= Total(rows)
  {
    TotalDrop(rows, row);
    if row in rows { assert rows == (rows - {row})[row := rows[row]]; } else { assert rows - {row} == rows; }
  }

  lemma InsertKeeps(g: Gate, t: Guid, batch: map<Guid, nat>)
    requires Inv(g) && t in g.open && HasRoom(g.bounds, g.open[t], batch)
    requires batch.Keys !! g.rows.Keys + g.open[t].pending.Keys
    ensures Inv(Inserted(g, t, batch))
  {
    assert TxnFits(g, t);
    TotalUnion(g.open[t].pending, batch);
    UnionSize(g.open[t].pending, batch);
    var g' := Inserted(g, t, batch);
    assert TxnFits(g', t);
    forall u | u in g'.open && u != t ensures TxnFits(g', u) {
      assert TxnFits(g, u);
    }
  }

  lemma CloseKeeps(g: Gate, t: Guid)
    requires Inv(g) && t in g.open
    ensures Inv(Close(g, t))
  {
    var g' := Close(g, t);
    forall u | u in g'.open ensures TxnFits(g', u) {
      assert TxnFits(g, u);
    }
  }

  lemma CommitKeeps(g: Gate, t: Guid)
    requires Inv(g) && t in g.open
    ensures Inv(Close(g.(rows := g.rows + g.open[t].pending), t))
  {
    assert TxnFits(g, t);
    TotalUnion(g.rows, g.open[t].pending);
    UnionSize(g.rows, g.open[t].pending);
    EmptyTotal();
    var g' := Close(g.(rows := g.rows + g.open[t].pending), t);
    forall u | u in g'.open ensures TxnFits(g', u) {
      assert TxnFits(g, u);
      if g.holder != Some(t) { assert g'.rows == g.rows; }
    }
  }

  lemma RemoveKeeps(g: Gate, row: Guid)
    requires Inv(g)
    ensures Inv(g.(rows := g.rows - {row}))
  {
    FewerRows(g.rows, row);
    var g' := g.(rows := g.rows - {row});
    forall u | u in g'.open ensures TxnFits(g', u) {
      assert TxnFits(g, u);
    }
  }

  lemma CountKeeps(g: Gate, s: Step)
    requires Inv(g) && (s.Begin? || s.TryLock? || s.CountRows? || s.SumWeights?)
    ensures Inv(Next(g, s))
  {
    EmptyTotal();
    var g' := Next(g, s);
    assert forall u | u in g'.open && u in g.open :: TxnFits(g, u);
  }

  lemma NextKeeps(g: Gate, s: Step)
    requires Inv(g)
    ensures Inv(Next(g, s)) && Next(g, s).bounds == g.bounds
  {
    hide Inv, HasRoom;
    match s {
      case Insert(t, batch) =>
        if t in g.open && HasRoom(g.bounds, g.open[t], batch) {
          if batch.Keys !! g.rows.Keys + g.open[t].pending.Keys { InsertKeeps(g, t, batch); } else { CloseKeeps(g, t); }
        }
      case Commit(t) => if t in g.open { CommitKeeps(g, t); }
      case Abort(t) => if t in g.open { CloseKeeps(g, t); }
      case Remove(row) => RemoveKeeps(g, row);
      case _ => CountKeeps(g, s);
    }
  }

  lemma {:induction false} RunFits(bounds: Bounds, steps: seq<Step>)
    ensures Inv(Run(bounds, steps)) && Run(bounds, steps).bounds == bounds
    decreases |steps|
  {
    if steps == [] {
      EmptyTotal();
    } else {
      hide Inv, Next;
      RunFits(bounds, steps[..|steps| - 1]);
      NextKeeps(Run(bounds, steps[..|steps| - 1]), steps[|steps| - 1]);
    }
  }

  /** Whatever interleaves at lock, count, check, insert, commit and release, the bounds hold. */
  lemma NeverOverLimit(bounds: Bounds, steps: seq<Step>)
    ensures |Run(bounds, steps).rows| <= bounds.rows
    ensures bounds.weight.Some? ==> Total(Run(bounds, steps).rows) <= bounds.weight.value
  {
    RunFits(bounds, steps);
    EmptyTotal();
  }

  /**
   * A transaction that commits rows still holds the lock, none of its rows is there, and
   * there is room for all of them: its whole body could as well happen at its commit.
   */
  lemma CommitIsAdmission(bounds: Bounds, steps: seq<Step>, t: Guid)
    requires t in Run(bounds, steps).open
    ensures var g := Run(bounds, steps);
      var pending := g.open[t].pending;
      && Next(g, Commit(t)).rows == g.rows + pending
      && pending.Keys !! g.rows.Keys
      && |g.rows| + |pending| <= bounds.rows
      && (bounds.weight.Some? ==> Total(g.rows) + Total(pending) <= bounds.weight.value)
      && (pending != map[] ==> g.holder == Some(t))
  {
    RunFits(bounds, steps);
    assert TxnFits(Run(bounds, steps), t);
  }

  /** The platform's queues: a hundred deliveries, five syncs, one export, twenty uploads of 500 MiB together. */
  lemma QueuesAreBounded(steps: seq<Step>)
    ensures |Run(DELIVERIES, steps).rows| <= 100 && |Run(SYNCS, steps).rows| <= 5 && |Run(EXPORTS, steps).rows| <= 1
    ensures |Run(UPLOADS, steps).rows| <= 20 && Total(Run(UPLOADS, steps).rows) <= 524288000
  {
    hide Run;
    NeverOverLimit(DELIVERIES, steps);
    NeverOverLimit(SYNCS, steps);
    NeverOverLimit(EXPORTS, steps);
    NeverOverLimit(UPLOADS, steps);
  }

  /** A transaction that finds the lock free and has it until it commits: begin, lock, count, sum, insert, commit. */
  ghost function Alone(g: Gate, t: Guid, batch: map<Guid, nat>): Gate {
    Next(Next(Next(Next(Next(Next(g, Begin(t)), TryLock(t)), CountRows(t)), SumWeights(t)), Insert(t, batch)), Commit(t))
  }

  lemma AloneLocks(g: Gate, t: Guid)
    requires t !in g.open && g.holder.None?
    ensures Next(Next(g, Begin(t)), TryLock(t)) == Mine(g, t, Txn(map[], None, None))
  {
    hide Total, HasRoom;
  }

  /** The gate while transaction `t` has the lock and stands as `txn`. */
  ghost function Mine(g: Gate, t: Guid, txn: Txn): Gate { g.(open := g.open[t := txn], holder := Some(t)) }

  lemma MineMoves(g: Gate, t: Guid, txn: Txn, txn': Txn)
    ensures Mine(g, t, txn).(open := Mine(g, t, txn).open[t := txn']) == Mine(g, t, txn')
  {
    assert g.open[t := txn][t := txn'] == g.open[t := txn'];
  }

  lemma AloneCounts(g: Gate, t: Guid)
    ensures Next(Mine(g, t, Txn(map[], None, None)), CountRows(t)) == Mine(g, t, Txn(map[], Some(|g.rows|), None))
  {
    MineMoves(g, t, Txn(map[], None, None), Txn(map[], Some(|g.rows|), None));
    hide HasRoom, Total;
  }

  lemma AloneSums(g: Gate, t: Guid, txn: Txn)
    requires txn.pending == map[]
    ensures Next(Mine(g, t, txn), SumWeights(t)) == Mine(g, t, txn.(weight := Some(Total(g.rows))))
  {
    EmptyTotal();
    MineMoves(g, t, txn, txn.(weight := Some(Total(g.rows))));
    hide HasRoom, Total;
  }

  lemma AloneInserts(g: Gate, t: Guid, txn: Txn, batch: map<Guid, nat>)
    requires txn.pending == map[] && batch.Keys !! g.rows.Keys
    ensures Next(Mine(g, t, txn), Insert(t, batch))
         == Mine(g, t, if HasRoom(g.bounds, txn, batch) then Txn(batch, None, None) else txn)
  {
    assert map[] + batch == batch;
    MineMoves(g, t, txn, Txn(batch, None, None));
    hide HasRoom, Total;
  }

  lemma AloneCommits(g: Gate, t: Guid, txn: Txn)
    requires t !in g.open
    ensures Next(Mine(g, t, txn), Commit(t)) == g.(rows := g.rows + txn.pending, holder := None)
  {
    assert g.open[t := txn] - {t} == g.open;
    hide HasRoom, Total;
  }

  /** It gets all its rows exactly if there is room for them, by number and by weight, and none otherwise. */
  lemma AdmitsExactly(g: Gate, t: Guid, batch: map<Guid, nat>)
    requires t !in g.open && g.holder.None? && batch.Keys !! g.rows.Keys
    ensures var room := |g.rows| + |batch| <= g.bounds.rows
                        && (g.bounds.weight.Some? ==> Total(g.rows) + Total(batch) <= g.bounds.weight.value);
      Alone(g, t, batch) == g.(rows := if room then g.rows + batch else g.rows)
  {
    var txn := Txn(map[], Some(|g.rows|), Some(Total(g.rows)));
    var room := HasRoom(g.bounds, txn, batch);
    NothingAdded(g.rows);
    AloneRuns(g, t, batch, txn, if room then Txn(batch, None, None) else txn);
  }

  lemma NothingAdded(rows: map<Guid, nat>)
    ensures rows + map[] == rows
  {
  }

  lemma AloneRuns(g: Gate, t: Guid, batch: map<Guid, nat>, txn: Txn, after: Txn)
    requires t !in g.open && g.holder.None? && batch.Keys !! g.rows.Keys
    requires txn == Txn(map[], Some(|g.rows|), Some(Total(g.rows)))
    requires after == if HasRoom(g.bounds, txn, batch) then Txn(batch, None, None) else txn
    ensures Alone(g, t, batch) == g.(rows := g.rows + after.pending, holder := None)
  {
    hide Next, Total, Mine, HasRoom;
    AloneLocks(g, t);
    AloneCounts(g, t);
    AloneSums(g, t, Txn(map[], Some(|g.rows|), None));
    AloneInserts(g, t, txn, batch);
    AloneCommits(g, t, after);
  }
}
