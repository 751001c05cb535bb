/** The reservation rows that every admission counts, and the locks around them. */
module Capacity {
  import opened Basics

  datatype Reservation = Reservation(code: string, batch: Guid)

  function Pending(rows: map<Guid, Reservation>, code: string): set<Guid> {
    set id | id in rows && rows[id].code == code
  }

  function Reserved(rows: map<Guid, Reservation>, code: string, batch: Guid, ids: set<Guid>): map<Guid, Reservation> {
    rows + map id | id in ids :: Reservation(code, batch)
  }

  /** Consuming deletes a row only under its own code. */
  function Consumed(rows: map<Guid, Reservation>, code: string, id: Guid): map<Guid, Reservation> {
    if id in Pending(rows, code) then rows - {id} else rows
  }

  /** Reserving new ids raises the count of their code by their number, and no other count. */
  lemma ReservedCounts(rows: map<Guid, Reservation>, code: string, batch: Guid, ids: set<Guid>, other: string)
    requires forall id | id in ids :: id !in rows
    ensures |Pending(Reserved(rows, code, batch, ids), other)| == |Pending(rows, other)| + if other == code then |ids| else 0
  {
    var rows' := Reserved(rows, code, batch, ids);
    var after := Pending(rows', other);
    forall id ensures id in after <==> id in Pending(rows, other) || (other == code && id in ids) {
      if id in ids { assert rows'[id] == Reservation(code, batch); } else { assert id in rows' <==> id in rows; }
    }
    if other == code {
      assert after == Pending(rows, other) + ids;
      assert forall id | id in ids :: id !in Pending(rows, other);
      assert Pending(rows, other) * ids == {};
    } else {
      assert after == Pending(rows, other);
    }
  }

  /** Consuming frees one unit of its code if the row was there, and never touches another code. */
  lemma ConsumedCounts(rows: map<Guid, Reservation>, code: string, id: Guid, other: string)
    ensures |Pending(Consumed(rows, code, id), other)|
         == |Pending(rows, other)| - if other == code && id in Pending(rows, code) then 1 else 0
  {
    if id in Pending(rows, code) {
      assert Pending(Consumed(rows, code, id), other) == Pending(rows, other) - (if other == code then {id} else {});
    }
  }

  class CapacityTable {
    var rows: map<Guid, Reservation>
    var holders: map<string, Guid>

    constructor ()
      ensures rows == map[] && holders == map[]
    {
      rows, holders := map[], map[];
    }

    /** Fails at once when another transaction holds the code's lock. */
    method TryLock(txn: Guid, code: string) returns (ok: bool)
      modifies this`holders
      ensures ok <==> code !in old(holders) || old(holders)[code] == txn
      ensures holders == if ok then old(holders)[code := txn] else old(holders)
    {
      if code in holders && holders[code] != txn { return false; }
      holders := holders[code := txn];
      ok := true;
    }

    /** Commit and rollback release all locks of the transaction, and no other's. */
    method End(txn: Guid)
      modifies this`holders
      ensures holders == map code | code in old(holders) && old(holders)[code] != txn :: old(holders)[code]
    {
      holders := map code | code in holders && holders[code] != txn :: holders[code];
    }

    method Reserve(txn: Guid, code: string, batch: Guid, ids: set<Guid>)
      requires forall id | id in ids :: id !in rows
      modifies this`rows
      ensures rows == Reserved(old(rows), code, batch, ids)
    {
      var todo := ids;
      while exists id :: id in todo
        invariant todo <= ids
        invariant forall id :: id in rows <==> id in old(rows) || (id in ids && id !in todo)
        invariant forall id | id in rows :: rows[id] == if id in ids && id !in todo then Reservation(code, batch) else old(rows)[id]
        decreases |todo|
      {
        var id :| id in todo;
        rows := rows[id := Reservation(code, batch)];
        todo := todo - {id};
      }
      ghost var all := Reserved(old(rows), code, batch, ids);
      assert forall id :: id in rows <==> id in all;
      assert forall id | id in rows :: rows[id] == all[id];
      assert rows == all;
    }

    method Consume(code: string, id: Guid) returns (deleted: bool)
      modifies this`rows
      ensures deleted <==> id in Pending(old(rows), code)
      ensures rows == Consumed(old(rows), code, id)
    {
      deleted := id in rows && rows[id].code == code;
      if deleted { rows := rows - {id}; }
    }

    /** One admission against a limit: lock, count, insert. */
    method Admit(txn: Guid, code: string, batch: Guid, id: Guid, limit: nat) returns (ok: bool)
      requires id !in rows
      modifies this
      ensures ok <==> (code !in old(holders) || old(holders)[code] == txn) && |Pending(old(rows), code)| < limit
      ensures rows == if ok then Reserved(old(rows), code, batch, {id}) else old(rows)
      ensures ok ==> |Pending(rows, code)| <= limit && forall other | other != code :: |Pending(rows, other)| == |Pending(old(rows), other)|
    {
      ok := TryLock(txn, code);
      if !ok || |Pending(rows, code)| >= limit { return false; }
      Reserve(txn, code, batch, {id});
      forall other ensures |Pending(rows, other)| == |Pending(old(rows), other)| + if other == code then 1 else 0 {
        ReservedCounts(old(rows), code, batch, {id}, other);
      }
    }
  }
}
