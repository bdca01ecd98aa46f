/**
 The store as it runs: tables and logs are fields, triggers fire on every write,
 transactions write row by row and roll back when a write is refused.
 */
module MasterDataStore {
  import opened Wrappers
  import opened Dimensions
  import opened MasterCodes
  import opened Triggers
  import opened Ordering
  import opened Spec = MasterData

  // ----------------------------------------------------------- trigger guards

  /** The Dimension BEFORE UPDATE trigger: raises on the first broken rule. */
  method DimensionBeforeUpdate(ctx: Context, prior: Dimension, next: Dimension, inUse: bool) returns (admitted: bool)
    ensures admitted <==> DimensionUpdateAllowed(ctx, prior, next, inUse)
  {
    if ctx.dimension == Some(DeleteDim) || ctx.dimension == Some(RestoreDim) {
      if next.id != prior.id || next.createdAt != prior.createdAt || next.code != prior.code
         || next.value != prior.value
      {
        return false;
      }
      if ctx.dimension == Some(DeleteDim) {
        if prior.deletedAt.Some? || next.deletedAt != Some(ctx.timestamp) { return false; }
        if inUse { return false; }
      } else if prior.deletedAt.None? || next.deletedAt.Some? {
        return false;
      }
      return next.version == prior.version + 1 && next.updatedAt == ctx.timestamp
             && next.updatedAt >= prior.updatedAt;
    }
    if prior.deletedAt.Some? { return false; }
    if ctx.dimension != Some(UpdateDim) { return false; }
    if next.id != prior.id || next.createdAt != prior.createdAt || next.deletedAt != prior.deletedAt {
      return false;
    }
    if prior.value.MemoryValue? && next.value.MemoryValue? {
      var proposedCapacity := next.value.Capacity();
      if proposedCapacity == prior.value.Capacity()
         && (next.value.amount != prior.value.amount || next.value.unit != prior.value.unit)
      {
        return false;
      }
    }
    var codeChanged := next.code != prior.code;
    var valueChanged := !SameValue(prior.value, next.value);
    if codeChanged && ctx.masterCode != Some(Recompose) { return false; }
    if codeChanged || valueChanged {
      return next.version == prior.version + 1 && next.updatedAt == ctx.timestamp
             && next.updatedAt >= prior.updatedAt;
    }
    return next.version == prior.version && next.updatedAt == prior.updatedAt;
  }

  /** The MasterCode BEFORE UPDATE trigger. */
  method RowBeforeUpdate(ctx: Context, prior: Row, next: Row) returns (admitted: bool)
    ensures admitted <==> RowUpdateAllowed(ctx, prior, next)
  {
    var referencesChanged := false;
    for s := 0 to SLOTS
      invariant referencesChanged <==> exists i :: 0 <= i < s && next.refs[i] != prior.refs[i]
    {
      referencesChanged := referencesChanged || next.refs[s] != prior.refs[s];
    }
    assert referencesChanged <==> next.refs != prior.refs;
    if ctx.masterCode == Some(Recompose) {
      if referencesChanged || next.code == prior.code || next.deletedAt != prior.deletedAt { return false; }
    } else if ctx.masterCode == Some(ReferenceUpdate) {
      if !referencesChanged || next.code == prior.code || prior.deletedAt.Some? || next.deletedAt.Some? {
        return false;
      }
    } else if ctx.masterCode == Some(DeleteCode) {
      if referencesChanged || next.code != prior.code || prior.deletedAt.Some?
         || next.deletedAt != Some(ctx.timestamp)
      {
        return false;
      }
    } else if ctx.masterCode == Some(RestoreCode) {
      if referencesChanged || prior.deletedAt.None? || next.deletedAt.Some? { return false; }
    } else {
      return false;
    }
    return next.id == prior.id && next.createdAt == prior.createdAt && next.version == prior.version + 1
           && next.updatedAt == ctx.timestamp && next.updatedAt >= prior.updatedAt;
  }

  class Store {
    var dims: map<Key, Dimension>
    var rows: map<Id, Row>
    var dimLog: seq<DimensionEntry>
    var codeLog: seq<CodeEntry>

    function View(): Db
      reads this
    {
      Db(dims, rows, dimLog, codeLog)
    }

    constructor ()
      ensures View() == EMPTY
    {
      dims, rows, dimLog, codeLog := map[], map[], [], [];
    }

    method Rollback(saved: Db)
      modifies this
      ensures View() == saved
    {
      dims, rows, dimLog, codeLog := saved.dims, saved.rows, saved.dimLog, saved.codeLog;
    }

    // ------------------------------------------------------------- row writes

    /** INSERT of one Dimension row: one log entry for the code and one for the value. */
    method InsertDimensionRow(ctx: Context, key: Key, next: Dimension) returns (ok: bool)
      modifies this
      ensures ok <==> InsertDimension(old(View()), ctx, key, next).Ok?
      ensures View() == if ok then InsertDimension(old(View()), ctx, key, next).value else old(View())
    {
      if ctx.dimension != Some(CreateDim) { return false; }
      if next.version != 1 || next.createdAt != next.updatedAt || next.deletedAt.Some? { return false; }
      if !DimensionChecks(key.slot, next) || key in dims || CodeTaken(View(), key, next.code)
         || ValueTaken(View(), key, next.value)
      {
        return false;
      }
      var entries := [
        DimensionEntry(key, next.version, CreateDim, CodeField(None, next.code), next.updatedAt),
        DimensionEntry(key, next.version, CreateDim, ValueField(None, next.value), next.updatedAt)];
      if !AllEntryChecks(entries) { return false; }
      dims := dims[key := next];
      dimLog := dimLog + entries;
      return true;
    }

    /** INSERT of one MasterCode row. */
    method InsertCodeRow(ctx: Context, next: Row) returns (r: Result<(), StoreError>)
      modifies this
      ensures r.Ok? <==> InsertRow(old(View()), ctx, next).Ok?
      ensures r.Err? ==> r.error == InsertRow(old(View()), ctx, next).error
      ensures View() == if r.Ok? then InsertRow(old(View()), ctx, next).value else old(View())
    {
      if ctx.masterCode != Some(CreateCode) { return Err(Rejected); }
      if next.version != 1 || next.createdAt != next.updatedAt || next.createdAt != ctx.timestamp
         || next.deletedAt.Some?
      {
        return Err(Rejected);
      }
      if !RowChecks(next) || next.id in rows { return Err(Rejected); }
      if RowCollides(View(), next.id, next) { return Err(MasterCodeConflict); }
      var entry := CodeEntry(next.id, next.version, CreateCode, None, Snapshot(next.refs, next.code, false),
                             next.updatedAt);
      if !CodeEntryChecks(entry) { return Err(Rejected); }
      rows := rows[next.id := next];
      codeLog := codeLog + [entry];
      return Ok(());
    }

    /** UPDATE of one Dimension row: guard, constraints, then up to three log entries. */
    method UpdateDimensionRow(ctx: Context, key: Key, next: Dimension) returns (ok: bool)
      requires key in dims
      modifies this
      ensures ok <==> WriteDimension(old(View()), ctx, key, next).Ok?
      ensures View() == if ok then WriteDimension(old(View()), ctx, key, next).value else old(View())
    {
      var prior := dims[key];
      ok := DimensionBeforeUpdate(ctx, prior, next, InUse(View(), key));
      if !ok { return; }
      if !DimensionChecks(key.slot, next) || CodeTaken(View(), key, next.code) || ValueTaken(View(), key, next.value) {
        return false;
      }
      var entries: seq<DimensionEntry> := [];
      if prior.deletedAt.None? != next.deletedAt.None? {
        entries := [DimensionEntry(key, next.version, if next.deletedAt.None? then RestoreDim else DeleteDim,
                                   DeletedField(prior.deletedAt.Some?, next.deletedAt.Some?), next.updatedAt)];
      }
      assert entries == LifecycleEntries(key, prior, next);
      if next.code != prior.code {
        entries := entries + [DimensionEntry(key, next.version, UpdateDim,
                                             CodeField(Some(prior.code), next.code), next.updatedAt)];
      }
      assert entries == LifecycleEntries(key, prior, next) + CodeEntries(key, prior, next);
      if !SameValue(prior.value, next.value) {
        entries := entries + [DimensionEntry(key, next.version, UpdateDim,
                                             ValueField(Some(prior.value), next.value), next.updatedAt)];
      }
      assert entries == UpdateEntries(key, prior, next);
      if !AllEntryChecks(entries) { return false; }
      dims := dims[key := next];
      dimLog := dimLog + entries;
    }

    /** UPDATE of one MasterCode row: guard, both uniqueness rules, then one log entry. */
    method UpdateRow(ctx: Context, id: Id, next: Row) returns (r: Result<(), StoreError>)
      requires id in rows
      modifies this
      ensures r.Ok? <==> WriteRow(old(View()), ctx, id, next).Ok?
      ensures r.Err? ==> r.error == WriteRow(old(View()), ctx, id, next).error
      ensures View() == if r.Ok? then WriteRow(old(View()), ctx, id, next).value else old(View())
    {
      hide RowChecks, RowCollides, CodeShape;
      var admitted := RowBeforeUpdate(ctx, rows[id], next);
      if !admitted || !RowChecks(next) { return Err(Rejected); }
      if RowCollides(View(), id, next) { return Err(MasterCodeConflict); }
      var entry := UpdateEntry(ctx.masterCode.value, rows[id], next);
      if !CodeEntryChecks(entry) { return Err(Rejected); }
      codeLog := codeLog + [entry];
      rows := rows[id := next];
      return Ok(());
    }

    // ------------------------------------------------------- Dimension updates

    /** Recomposes the locked rows one by one; stops at the first refusal. */
    method RecomposeLocked(base: Db, ctx: Context, slot: Slot, changed: Dimension, ids: seq<Id>)
      returns (r: Result<(), StoreError>)
      requires forall id :: id in ids ==> id in base.rows && id in rows
      modifies this
      ensures r.Ok? <==> RecomposeRows(old(View()), base, ctx, slot, changed, ids).Ok?
      ensures r.Ok? ==> View() == RecomposeRows(old(View()), base, ctx, slot, changed, ids).value
      ensures r.Err? ==> r.error == RecomposeRows(old(View()), base, ctx, slot, changed, ids).error
    {
      ghost var start := View();
      for i := 0 to |ids|
        invariant rows.Keys == start.rows.Keys
        invariant RecomposeRows(start, base, ctx, slot, changed, ids[..i]) == Ok(View())
      {
        var id := ids[i];
        ghost var mid := View();
        ghost var turn := RecomposeRow(mid, base, ctx, slot, changed, id);
        assert ids[..i + 1][..i] == ids[..i] && ids[..i + 1][i] == id;
        assert RecomposeRows(start, base, ctx, slot, changed, ids[..i + 1]) == turn;
        var loaded := Load(base, id);
        var failure: Option<StoreError> := None;
        if loaded.Err? {
          failure := Some(loaded.error);
        } else {
          var current := loaded.value;
          var next := current.Recompose(current.dims[slot := Some(changed)], ctx.timestamp);
          if next.Err? {
            failure := Some(Corrupt);
          } else if next.value != current {
            var row := rows[id].(code := next.value.code, version := next.value.version,
                                 updatedAt := next.value.updatedAt);
            var written := UpdateRow(ctx, id, row);
            if written.Err? { failure := Some(written.error); }
          }
        }
        assert failure.None? ==> turn == Ok(View());
        assert failure.Some? ==> turn == Err(failure.value);
        if failure.Some? {
          RefusalPersists(start, base, ctx, slot, changed, ids, i + 1);
          return Err(failure.value);
        }
      }
      assert ids[..|ids|] == ids;
      return Ok(());
    }

    method LatestLocked(ids: seq<Id>, floor: Time) returns (t: Time)
      requires forall id :: id in ids ==> id in rows
      ensures t == LatestUpdate(View(), ids, floor)
    {
      t := floor;
      for i := 0 to |ids|
        invariant t == LatestUpdate(View(), ids[..i], floor)
      {
        assert ids[..i + 1][..i] == ids[..i];
        t := Later(t, rows[ids[i]].updatedAt);
      }
      assert ids[..|ids|] == ids;
    }

    /** Changes a Dimension's code or value and recomposes every referencing MasterCode. */
    method ChangeDimension(
      key: Key, expected: int, rawCode: Option<string>, rawValue: Option<Value>, clock: Time)
      returns (reply: Result<Reply, StoreError>)
      modifies this
      ensures Outcome(View(), reply) == UpdateDimension(old(View()), key, expected, rawCode, rawValue, clock)
    {
      if expected < 1 || (rawCode.None? && rawValue.None?) { return Err(InvalidInput); }
      var code: Option<string> := None;
      if rawCode.Some? {
        var parsed := ParseCode(rawCode.value);
        if parsed.Err? { return Err(InvalidInput); }
        code := Some(parsed.value);
      }
      var value: Option<Value> := None;
      if rawValue.Some? {
        value := ParseValue(key.slot, rawValue.value);
        if value.None? { return Err(InvalidInput); }
      }
      if key !in dims || dims[key].IsDeleted() { return Err(NotFound); }
      var current := dims[key];
      if current.version != expected { return Err(PreconditionFailed); }
      var newCode, newValue := ChangesCode(current, code), ChangesValue(current, value);
      if !newCode && !newValue { return Ok(DimensionReply(current)); }
      var codeTaken := newCode && CodeTaken(View(), key, code.value);
      var valueTaken := newValue && ValueTaken(View(), key, value.value);
      if codeTaken || valueTaken { return Err(DimensionConflict(codeTaken, valueTaken)); }
      reply := this.Apply(key, code, value, clock);
    }

    method Apply(key: Key, code: Option<string>, value: Option<Value>, clock: Time)
      returns (reply: Result<Reply, StoreError>)
      requires key in dims
      modifies this
      ensures Outcome(View(), reply) == ApplyChange(old(View()), key, code, value, clock)
    {
      var saved := View();
      var current := dims[key];
      var locked := [];
      if ChangesCode(current, code) { locked := Ascending(Referencing(View(), key)); }
      var minimum := LatestLocked(locked, current.updatedAt);
      var at := Later(clock, minimum);
      var ctx := Context(Some(UpdateDim), if code.Some? then Some(Recompose) else None, at);
      var changed := current.Change(code, value, at);
      if changed.Err? { return Err(Corrupt); }
      var ok := UpdateDimensionRow(ctx, key, changed.value);
      if !ok { return Err(Rejected); }
      var recomposed := RecomposeLocked(saved, ctx, key.slot, changed.value, locked);
      if recomposed.Err? {
        Rollback(saved);
        return Err(recomposed.error);
      }
      return Ok(DimensionReply(changed.value));
    }
  }

  /** Once a turn of the loop is refused, the whole loop is. */
  lemma {:induction false} RefusalPersists(
    start: Db, base: Db, ctx: Context, slot: Slot, changed: Dimension, ids: seq<Id>, n: nat)
    requires forall id :: id in ids ==> id in base.rows && id in start.rows
    requires n <= |ids| && RecomposeRows(start, base, ctx, slot, changed, ids[..n]).Err?
    ensures RecomposeRows(start, base, ctx, slot, changed, ids)
         == RecomposeRows(start, base, ctx, slot, changed, ids[..n])
  {
    if n == |ids| {
      assert ids[..n] == ids;
    } else {
      var front := ids[..|ids| - 1];
      assert front[..n] == ids[..n];
      RefusalPersists(start, base, ctx, slot, changed, front, n);
    }
  }
}
