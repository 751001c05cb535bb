/** Sums over the rows of a table. */
module Totals {
  import opened Basics

  /** The sum of all weights. */
  ghost function Total(rows: map<Guid, nat>): nat {
    if exists k :: k in rows then
      var k :| k in rows;
      rows[k] + Total(rows - {k})
    else 0
  }

  lemma {:induction false} TotalMinus(rows: map<Guid, nat>, k: Guid)
    requires k in rows
    ensures Total(rows) == rows[k] + Total(rows - {k})
    decreases |rows|
  {
    var c :| c in rows && Total(rows) == rows[c] + Total(rows - {c});
    if c != k {
      TotalMinus(rows - {c}, k);
      TotalMinus(rows - {k}, c);
      assert rows - {c} - {k} == rows - {k} - {c};
    }
  }

  lemma TotalPlus(rows: map<Guid, nat>, k: Guid, weight: nat)
    requires k !in rows
    ensures Total(rows[k := weight]) == Total(rows) + weight
  {
    TotalMinus(rows[k := weight], k);
    assert rows[k := weight] - {k} == rows;
  }

  lemma TotalDrop(rows: map<Guid, nat>, k: Guid)
    ensures Total(rows - {k}) <= Total(rows)
  {
    if k in rows { TotalMinus(rows, k); } else { assert rows - {k} == rows; }
  }

  lemma UnionStep(rows: map<Guid, nat>, more: map<Guid, nat>, k: Guid)
    requires k in more && k !in rows
    ensures rows + more == (rows + (more - {k}))[k := more[k]] && k !in rows + (more - {k})
  {
  }

  lemma {:induction false} TotalUnion(rows: map<Guid, nat>, more: map<Guid, nat>)
    requires forall k | k in more :: k !in rows
    ensures Total(rows + more) == Total(rows) + Total(more)
    decreases |more|
  {
    if exists k :: k in more {
      var k :| k in more;
      hide Total;
      TotalMinus(more, k);
      TotalUnion(rows, more - {k});
      UnionStep(rows, more, k);
      TotalPlus(rows + (more - {k}), k, more[k]);
    } else {
      assert rows + more == rows;
    }
  }
}
