/** The Storage handlers as the program runs them, each held to the machine of Files. */
module FileLibrary {
  import opened Basics
  import opened FileRows
  import opened ReportTypes
  import opened ReportRules
  import opened Totals
  import opened Files

  class FileTables {
    const tenant: Tenant
    const kind: StoreKind
    var rows: map<Guid, FileRow>
    var store: set<BlobKey>
    var purged: bool
    var acknowledged: set<Guid>

    ghost function Contents(): Library
      reads this
    {
      Library(rows, store, purged)
    }

    constructor (tenant: Tenant, kind: StoreKind)
      ensures Contents() == EMPTY && acknowledged == {} && this.tenant == tenant && this.kind == kind
    {
      this.tenant, this.kind := tenant, kind;
      rows, store, purged, acknowledged := map[], {}, false, {};
    }

    /** The declared bytes of everything outstanding. */
    method OutstandingBytes() returns (bytes: nat)
      ensures bytes == Total(Budgeted(rows))
    {
      var todo := Budgeted(rows);
      bytes := 0;
      while exists id :: id in todo
        invariant bytes + Total(todo) == Total(Budgeted(rows))
        decreases |todo|
      {
        var id :| id in todo;
        TotalMinus(todo, id);
        bytes := bytes + todo[id];
        todo := todo - {id};
      }
    }

    method Create(id: Guid, contentType: string, size: int, sites: seq<Guid>, now: Instant) returns (ok: bool)
      requires id !in rows
      modifies this`rows
      ensures ok <==> 1 <= size <= 104857600 && |Budgeted(old(rows))| < 20 && Total(Budgeted(old(rows))) + size <= 524288000
      ensures ok ==> id in rows && rows[id].status.PendingUpload? && rows[id].maxBytes == size && rows[id].createdAt == now
                     && rows[id].key == BlobKey(tenant, FilePath(id), false) && rows[id].contentType == contentType
                     && rows[id].sites == sites && !rows[id].hold
      ensures Contents() == Created(old(Contents()), id, NewUpload(tenant, id, contentType, size, sites, now))
    {
      if size <= 0 || size > MAX_UPLOAD || |Budgeted(rows)| >= MAX_OUTSTANDING { return false; }
      var bytes := OutstandingBytes();
      if bytes + size > MAX_OUTSTANDING_BYTES { return false; }
      rows := rows[id := NewUpload(tenant, id, contentType, size, sites, now)];
      ok := true;
    }

    /** Deletes a file's bytes and leaves a tombstone. */
    method Erase(id: Guid)
      requires id in rows
      modifies this`rows, this`store
      ensures rows == old(rows)[id := Erasure(old(rows)[id]).row] && store == old(store) - Keys(old(rows)[id])
    {
      var row := rows[id];
      store := store - {row.key};
      if row.preview.Some? { store := store - {row.preview.value}; }
      rows := rows[id := row.(status := Erased, preview := None)];
      assert store == old(store) - Keys(row);
    }

    method Complete(id: Guid, length: Option<int>, now: Instant)
      modifies this`rows, this`store
      ensures Contents() == Acted(old(Contents()), id, Op.Complete(length), now, kind)
      ensures store == old(store) && rows.Keys == old(rows).Keys
      ensures forall f | f in rows :: var p := old(rows)[f];
        rows[f] == if f == id && p.status.PendingUpload? && length.Some? && length.value != 0
                   then p.(status := if length.value > p.maxBytes then Quarantined else Uploaded) else p
    {
      if id !in rows { return; }
      var row := rows[id];
      if row.status == PendingUpload && length.Some? && length.value != 0 {
        rows := rows[id := row.(status := if length.value > row.maxBytes then Quarantined else Uploaded)];
      } else {
        assert rows[id := rows[id]] == rows;
      }
    }

    method Scan(id: Guid, clean: bool, now: Instant)
      modifies this`rows, this`store
      ensures Contents() == Acted(old(Contents()), id, Op.Scan(clean), now, kind)
      ensures store == old(store) && rows.Keys == old(rows).Keys
      ensures forall f | f in rows :: var p := old(rows)[f];
        rows[f] == if f == id && p.status.Uploaded? then p.(status := if clean then Clean else Quarantined) else p
    {
      if id !in rows { return; }
      if rows[id].status == Uploaded {
        rows := rows[id := rows[id].(status := if clean then Clean else Quarantined)];
      } else {
        assert rows[id := rows[id]] == rows;
      }
    }

    method Derive(id: Guid, now: Instant)
      modifies this`rows, this`store
      ensures Contents() == Acted(old(Contents()), id, Op.Derive, now, kind)
      ensures id in old(rows) ==> var p := old(rows)[id];
        && id in rows
        && if p.status.Clean? && p.maxBytes <= 1048576
              && ("text/" <= p.contentType || p.contentType == "application/json" || p.contentType == "application/csv")
           then rows[id].preview == Some(p.key.(preview := true)) && store == old(store) + {p.key.(preview := true)}
           else rows[id] == p && store == old(store)
    {
      if id !in rows { return; }
      var row := rows[id];
      if row.status == Clean && Textual(row.contentType) && row.maxBytes <= PREVIEW_LIMIT {
        var preview := row.key.(preview := true);
        store := store + {preview};
        rows := rows[id := row.(preview := Some(preview))];
      } else {
        assert rows[id := rows[id]] == rows;
      }
    }

    method PlaceHold(id: Guid, hold: bool, now: Instant)
      modifies this`rows, this`store
      ensures Contents() == Acted(old(Contents()), id, Op.SetHold(hold), now, kind)
      ensures store == old(store) && rows.Keys == old(rows).Keys
      ensures forall f | f in rows :: rows[f] == if f == id then old(rows)[f].(hold := hold) else old(rows)[f]
    {
      if id !in rows { return; }
      rows := rows[id := rows[id].(hold := hold)];
    }

    method Delete(id: Guid, now: Instant)
      modifies this`rows, this`store
      ensures Contents() == Acted(old(Contents()), id, Op.Delete, now, kind)
      ensures id in old(rows) ==> var p := old(rows)[id];
        && id in rows
        && (p.status.Erased? || p.status.Deleted? || p.hold ==> rows[id] == p && store == old(store))
        && (!p.status.Erased? && !p.status.Deleted? && !p.hold ==>
              if p.status.Clean? then rows[id].status.Deleted? && rows[id].deletedAt == Some(now) && store == old(store)
              else if kind.bounded && !kind.local && p.createdAt + 900 > now then rows[id].status.Quarantined? && store == old(store)
              else rows[id].status.Erased? && p.key !in store)
    {
      if id !in rows { return; }
      var row := rows[id];
      if row.status == Erased || row.status == Deleted || row.hold {
        assert rows[id := rows[id]] == rows;
        return;
      }
      if row.status != Clean && kind.LiveTickets() && row.createdAt + TICKET > now {
        rows := rows[id := row.(status := Quarantined, deletedAt := Some(now))];
      } else if row.status != Clean {
        Erase(id);
      } else {
        rows := rows[id := row.(status := Deleted, deletedAt := Some(now))];
      }
    }

    method Restore(id: Guid, now: Instant)
      modifies this`rows, this`store
      ensures Contents() == Acted(old(Contents()), id, Op.Restore, now, kind)
      ensures store == old(store) && rows.Keys == old(rows).Keys
      ensures forall f | f in rows :: var p := old(rows)[f];
        rows[f] == if f == id && p.status.Deleted? then p.(status := Clean, deletedAt := None) else p
    {
      if id !in rows { return; }
      if rows[id].status == Deleted {
        rows := rows[id := rows[id].(status := Clean, deletedAt := None)];
      } else {
        assert rows[id := rows[id]] == rows;
      }
    }

    /**
     * The expiry sweep. The candidates were selected earlier; each is locked, reloaded and
     * judged again, so the result is the one handler after the other.
     */
    method ExpirePending(candidates: seq<Guid>, now: Instant)
      modifies this`rows, this`store
      ensures Contents() == ActedAll(old(Contents()), candidates, Op.ExpirePending, now, kind)
      ensures SweptExactly(old(Contents()), Contents(), candidates,
                           (row: FileRow) => Stale(row, now))
    {
      for i := 0 to |candidates|
        invariant Contents() == ActedAll(old(Contents()), candidates[..i], Op.ExpirePending, now, kind)
      {
        assert candidates[..i + 1][..i] == candidates[..i];
        var id := candidates[i];
        if id in rows {
          var row := rows[id];
          if !row.hold && row.createdAt < now - HOUR && Outstanding(row.status) {
            Erase(id);
          } else {
            assert rows[id := rows[id]] == rows;
          }
        }
      }
      assert candidates[..|candidates|] == candidates;
      SweptAll(old(Contents()), candidates, Op.ExpirePending, now, kind, (row: FileRow) => Stale(row, now));
    }

    /** The trash sweep, in the same way. */
    method PurgeTrash(candidates: seq<Guid>, window: int, now: Instant)
      modifies this`rows, this`store
      ensures Contents() == ActedAll(old(Contents()), candidates, Op.PurgeTrash(window), now, kind)
      ensures SweptExactly(old(Contents()), Contents(), candidates,
                           (row: FileRow) => Discardable(row, window, now, kind))
    {
      var cutoff, ticketCutoff := now - window * DAY, now - TICKET;
      for i := 0 to |candidates|
        invariant Contents() == ActedAll(old(Contents()), candidates[..i], Op.PurgeTrash(window), now, kind)
      {
        assert candidates[..i + 1][..i] == candidates[..i];
        var id := candidates[i];
        if id in rows {
          var row := rows[id];
          if row.status == Deleted && !row.hold && Before(row.deletedAt, cutoff)
             && !(kind.LiveTickets() && row.createdAt >= ticketCutoff)
          {
            Erase(id);
          } else {
            assert rows[id := rows[id]] == rows;
          }
        }
      }
      assert candidates[..|candidates|] == candidates;
      SweptAll(old(Contents()), candidates, Op.PurgeTrash(window), now, kind, (row: FileRow) => Discardable(row, window, now, kind));
    }

    /** Publication from Reporting: behind the fence nothing, otherwise the row once and an acknowledgement each time. */
    method Publish(m: ReportTypes.Publish) returns (accepted: bool)
      modifies this`rows, this`acknowledged
      ensures accepted <==>
        && !purged
        && if m.id in old(rows) then
             var row := old(rows)[m.id];
             row.key == m.key && row.origin == Some(m.origin) && row.originId == Some(m.originId)
           else m.bytes > 0 && 1 <= |m.sites| <= 1000 && m.key.tenant == tenant
      ensures Contents() == Received(old(Contents()), tenant, m)
      ensures rows.Keys == old(rows).Keys + (if accepted then {m.id} else {}) && forall f | f in old(rows) :: rows[f] == old(rows)[f]
      ensures accepted && m.id !in old(rows) ==>
        rows[m.id].status.Clean? && rows[m.id].key == m.key && rows[m.id].maxBytes == m.bytes && rows[m.id].createdAt == m.createdAt
      ensures acknowledged == if accepted then old(acknowledged) + {m.id} else old(acknowledged)
    {
      if purged { return false; }
      if m.id !in rows {
        if m.bytes <= 0 || |m.sites| < 1 || |m.sites| > 1000 || m.key.tenant != tenant { return false; }
        rows := rows[m.id := PublishedRow(m)];
      } else if rows[m.id].key != m.key || rows[m.id].origin != Some(m.origin) || rows[m.id].originId != Some(m.originId) {
        return false;
      }
      acknowledged := acknowledged + {m.id};
      accepted := true;
    }

    /** The organization's purge: the fence first, then all bytes, then all rows. */
    method PurgeOrg()
      modifies this`rows, this`store, this`purged
      ensures Contents() == Emptied(old(Contents()))
      ensures purged && rows == map[] && store <= old(store)
      ensures forall key | key in old(store) ::
        key !in store <==> exists id :: id in old(rows) && (key == old(rows)[id].key || old(rows)[id].preview == Some(key))
    {
      purged := true;
      var todo := rows.Keys;
      while exists id :: id in todo
        invariant todo <= rows.Keys && rows == old(rows) && purged
        invariant forall key :: key in store <==> key in old(store) && forall id | id in rows && id !in todo :: key !in Keys(rows[id])
        decreases |todo|
      {
        var id :| id in todo;
        store := store - {rows[id].key};
        if rows[id].preview.Some? { store := store - {rows[id].preview.value}; }
        todo := todo - {id};
      }
      assert forall id :: id !in todo;
      assert forall key :: key in AllKeys(rows) <==> exists id :: id in rows && key in Keys(rows[id]);
      ghost var keys := AllKeys(old(rows));
      assert forall key :: key in store <==> key in old(store) && key !in keys;
      assert store == old(store) - keys;
      rows := map[];
    }
  }

  /** One handler after the other. */
  function ActedAll(lib: Library, ids: seq<Guid>, op: Op, now: Instant, kind: StoreKind): Library
    decreases |ids|
  {
    if ids == [] then lib
    else Acted(ActedAll(lib, ids[..|ids| - 1], op, now, kind), ids[|ids| - 1], op, now, kind)
  }

  /** An upload that came to nothing: an hour old, not held, and not clean. */
  predicate Stale(row: FileRow, now: Instant) {
    !row.hold && row.createdAt + 3600 < now && (row.status.PendingUpload? || row.status.Uploaded? || row.status.Quarantined?)
  }

  /** A file longer than its days in the trash, not held, and with no upload ticket of the last quarter of an hour. */
  predicate Discardable(row: FileRow, window: int, now: Instant, kind: StoreKind) {
    && !row.hold && row.status.Deleted? && row.deletedAt.Some? && row.deletedAt.value + window * 86400 < now
    && !(kind.bounded && !kind.local && row.createdAt + 900 >= now)
  }

  /** A sweep erased exactly the candidates that were to go, with their bytes, and touched nothing else. */
  ghost predicate SweptExactly(lib: Library, lib': Library, ids: seq<Guid>, goes: FileRow -> bool) {
    && lib'.rows.Keys == lib.rows.Keys && lib'.purged == lib.purged
    && (forall f | f in lib.rows ::
          lib'.rows[f] == if f in ids && goes(lib.rows[f]) then lib.rows[f].(status := Erased, preview := None) else lib.rows[f])
    && (forall key :: key in lib'.store <==>
          key in lib.store
          && forall f | f in lib.rows && f in ids && goes(lib.rows[f]) :: key != lib.rows[f].key && lib.rows[f].preview != Some(key))
  }

  lemma {:induction false} SweptAll(lib: Library, ids: seq<Guid>, op: Op, now: Instant, kind: StoreKind, goes: FileRow -> bool)
    requires forall row :: Apply(row, op, now, kind) == if goes(row) then Erasure(row) else Unchanged(row)
    requires forall row: FileRow :: row.status.Erased? ==> !goes(row)
    ensures SweptExactly(lib, ActedAll(lib, ids, op, now, kind), ids, goes)
    decreases |ids|
  {
    if ids != [] {
      var n := |ids| - 1;
      var mid := ActedAll(lib, ids[..n], op, now, kind);
      SweptAll(lib, ids[..n], op, now, kind, goes);
      assert ids == ids[..n] + [ids[n]];
      SweptOne(lib, mid, ids[..n], ids[n], op, now, kind, goes);
    }
  }

  lemma SweptOne(lib: Library, mid: Library, ids: seq<Guid>, id: Guid, op: Op, now: Instant, kind: StoreKind, goes: FileRow -> bool)
    requires forall row :: Apply(row, op, now, kind) == if goes(row) then Erasure(row) else Unchanged(row)
    requires forall row: FileRow :: row.status.Erased? ==> !goes(row)
    requires SweptExactly(lib, mid, ids, goes)
    ensures SweptExactly(lib, Acted(mid, id, op, now, kind), ids + [id], goes)
  {
    hide Apply;
    var lib' := Acted(mid, id, op, now, kind);
    if id in lib.rows {
      assert mid.rows[id] == lib.rows[id] || mid.rows[id].status.Erased?;
    }
  }
}
