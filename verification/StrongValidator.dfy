/** What only ever grows along a run, and what follows for the logs and the validator. */
module StrongValidator {
  import opened Wrappers
  import opened Dimensions
  import opened MasterCodes
  import opened Triggers
  import opened MasterData
  import opened Coherence
  import opened Recomposition
  import opened AuditTrail
  import opened StoreRuns

  /** Rows never vanish, a changed row has a larger version, and logs are only appended to. */
  predicate Extends(a: Db, b: Db) {
    (forall k :: k in a.dims ==>
      k in b.dims && (b.dims[k] == a.dims[k] || a.dims[k].version < b.dims[k].version))
    && (forall id :: id in a.rows ==>
      id in b.rows && (b.rows[id] == a.rows[id] || a.rows[id].version < b.rows[id].version))
    && a.dimLog <= b.dimLog && a.codeLog <= b.codeLog
    && NewEntriesAreNewer(a, b)
  }

  /** Entries added about a known Dimension carry a version it has not had yet. */
  predicate NewEntriesAreNewer(a: Db, b: Db)
    requires a.dimLog <= b.dimLog
  {
    forall n :: |a.dimLog| <= n < |b.dimLog| && b.dimLog[n].key in a.dims ==>
      a.dims[b.dimLog[n].key].version < b.dimLog[n].version
  }

  lemma ExtendsReflexive(db: Db)
    ensures Extends(db, db)
  {
  }

  lemma ExtendsTransitive(a: Db, b: Db, c: Db)
    requires Extends(a, b) && Extends(b, c)
    ensures Extends(a, c)
  {
  }

  predicate Logged(db: Db) { DimLogOk(db) && DimChainOk(db) && CodeLogOk(db) }

  /** One step of a transaction: it extends the store and logs what it did. */
  predicate Advances(a: Db, b: Db) { Extends(a, b) && (Logged(a) ==> Logged(b)) }

  predicate RowsNamed(db: Db) { forall id :: id in db.rows ==> db.rows[id].id == id }

  lemma InsertDimensionAdvances(db: Db, ctx: Context, key: Key, d: Dimension)
    requires InsertDimension(db, ctx, key, d).Ok?
    ensures Advances(db, InsertDimension(db, ctx, key, d).value)
  {
    hide DimChainOk, CodeTaken, ValueTaken, AllEntryChecks, DimensionChecks, Tells, Replay;
    if Logged(db) { InsertDimensionLogged(db, ctx, key, d); }
  }

  lemma WriteDimensionExtends(db: Db, ctx: Context, key: Key, d: Dimension)
    requires key in db.dims && WriteDimension(db, ctx, key, d).Ok?
    ensures Extends(db, WriteDimension(db, ctx, key, d).value)
  {
    var prior := db.dims[key];
    assert WriteDimension(db, ctx, key, d).value
        == db.(dims := db.dims[key := d], dimLog := db.dimLog + UpdateEntries(key, prior, d));
    UpdateCounts(ctx, key, prior, d, InUse(db, key));
    UpdateEntriesNamed(key, prior, d);
    UnchangedUpdate(ctx, key, prior, d, InUse(db, key));
    hide WriteDimension, UpdateEntries, SameValue, InUse, DimensionUpdateAllowed;
  }

  /** An admitted update that logs nothing writes the row as it was. */
  lemma UnchangedUpdate(ctx: Context, key: Key, prior: Dimension, next: Dimension, inUse: bool)
    requires DimensionUpdateAllowed(ctx, prior, next, inUse)
    ensures UpdateEntries(key, prior, next) == [] ==> next == prior
  {
  }

  lemma WriteDimensionAdvances(db: Db, ctx: Context, key: Key, d: Dimension)
    requires key in db.dims && WriteDimension(db, ctx, key, d).Ok?
    ensures Advances(db, WriteDimension(db, ctx, key, d).value)
  {
    WriteDimensionExtends(db, ctx, key, d);
    assert WriteDimension(db, ctx, key, d).value.rows == db.rows
        && WriteDimension(db, ctx, key, d).value.codeLog == db.codeLog;
    hide WriteDimension, Extends, DimLogOk, DimChainOk, Tells;
    if Logged(db) { WriteDimensionLogged(db, ctx, key, d); }
  }

  lemma InsertRowAdvances(db: Db, ctx: Context, r: Row)
    requires InsertRow(db, ctx, r).Ok?
    ensures Advances(db, InsertRow(db, ctx, r).value)
  {
    var next := InsertRow(db, ctx, r).value;
    hide RowChecks, RowCollides, CodeEntryChecks, Tells, Replay, Told, FieldsOnce, Logs;
    if Logged(db) {
      InsertRowLogged(db, ctx, r);
      DimensionLogUntouched(db, next);
    }
  }

  lemma WriteRowExtends(db: Db, ctx: Context, id: Id, r: Row)
    requires RowsNamed(db) && id in db.rows && WriteRow(db, ctx, id, r).Ok?
    ensures Extends(db, WriteRow(db, ctx, id, r).value) && RowsNamed(WriteRow(db, ctx, id, r).value)
  {
    hide RowChecks, RowCollides, CodeEntryChecks;
  }

  lemma WriteRowAdvances(db: Db, ctx: Context, id: Id, r: Row)
    requires RowsNamed(db) && id in db.rows && WriteRow(db, ctx, id, r).Ok?
    ensures Advances(db, WriteRow(db, ctx, id, r).value) && RowsNamed(WriteRow(db, ctx, id, r).value)
  {
    WriteRowExtends(db, ctx, id, r);
    hide Extends, RowChecks, RowCollides, CodeEntryChecks, RowUpdateAllowed, Tells, DimLogOk, DimChainOk, CodeLogOk;
    if Logged(db) {
      WriteRowLogged(db, ctx, id, r);
      DimensionLogUntouched(db, WriteRow(db, ctx, id, r).value);
    }
  }

  lemma DimensionLogUntouched(db: Db, next: Db)
    requires DimLogOk(db) && DimChainOk(db) && next.dims == db.dims && next.dimLog == db.dimLog
    ensures DimLogOk(next) && DimChainOk(next)
  {
  }

  lemma RecomposeRowAdvances(db: Db, base: Db, ctx: Context, slot: Slot, d: Dimension, id: Id)
    requires RowsNamed(db) && id in base.rows && id in db.rows && RecomposeRow(db, base, ctx, slot, d, id).Ok?
    ensures var next := RecomposeRow(db, base, ctx, slot, d, id).value; Advances(db, next) && RowsNamed(next)
  {
    var current := Load(base, id).value;
    var next := current.Recompose(current.dims[slot := Some(d)], ctx.timestamp).value;
    if next != current {
      var row := db.rows[id].(code := next.code, version := next.version, updatedAt := next.updatedAt);
      WriteRowAdvances(db, ctx, id, row);
    }
  }

  lemma {:induction false} RecomposeRowsAdvance(
    db: Db, base: Db, ctx: Context, slot: Slot, d: Dimension, ids: seq<Id>)
    requires forall id :: id in ids ==> id in base.rows && id in db.rows
    requires RowsNamed(db) && RecomposeRows(db, base, ctx, slot, d, ids).Ok?
    ensures var next := RecomposeRows(db, base, ctx, slot, d, ids).value; Advances(db, next) && RowsNamed(next)
  {
    hide Advances, RecomposeRow, RowsNamed;
    if ids == [] {
      ExtendsItself(db);
    } else {
      var front, id := ids[..|ids| - 1], ids[|ids| - 1];
      assert front + [id] == ids && id in ids;
      RecomposeRowsAdvance(db, base, ctx, slot, d, front);
      var mid := RecomposeRows(db, base, ctx, slot, d, front).value;
      LastTurn(db, base, ctx, slot, d, front, id);
      RecomposeRowAdvances(mid, base, ctx, slot, d, id);
      AdvancesCompose(db);
    }
  }

  lemma AdvancesCompose(db: Db)
    ensures forall mid, next :: Advances(db, mid) && Advances(mid, next) ==> Advances(db, next)
  {
    forall mid, next | Advances(db, mid) && Advances(mid, next) ensures Advances(db, next) {
      ExtendsTransitive(db, mid, next);
    }
  }

  lemma ApplyChangeAdvances(db: Db, key: Key, code: Option<string>, value: Option<Value>, clock: Time)
    requires RowsNamed(db) && key in db.dims
    ensures Advances(db, ApplyChange(db, key, code, value, clock).db)
  {
    hide Advances, Extends, Logged, LatestUpdate;
    var o := ApplyChange(db, key, code, value, clock);
    ExtendsItself(db);
    AdvancesCompose(db);
    if o.reply.Ok? {
      var current := db.dims[key];
      var ids := if ChangesCode(current, code) then Ordering.Ascending(Referencing(db, key)) else [];
      var at := Later(clock, LatestUpdate(db, ids, current.updatedAt));
      var ctx := Context(Some(UpdateDim), if code.Some? then Some(Recompose) else None, at);
      var d := current.Change(code, value, at).value;
      WriteDimensionAdvances(db, ctx, key, d);
      var mid := WriteDimension(db, ctx, key, d).value;
      RecomposeRowsAdvance(mid, db, ctx, key.slot, d, ids);
    }
  }

  lemma FinishRowAdvances(db: Db, ctx: Context, id: Id, m: Result<MasterCode, MasterCodeError>)
    requires RowsNamed(db) && id in db.rows
    ensures Advances(db, FinishRow(db, ctx, id, m).db)
  {
    if m.Ok? && WriteRow(db, ctx, id, RowOf(m.value)).Ok? { WriteRowAdvances(db, ctx, id, RowOf(m.value)); }
  }

  lemma FinishDimensionAdvances(db: Db, key: Key, ctx: Context, d: Result<Dimension, DimensionError>)
    requires key in db.dims
    ensures Advances(db, FinishDimension(db, key, ctx, d).db)
  {
    if d.Ok? && WriteDimension(db, ctx, key, d.value).Ok? { WriteDimensionAdvances(db, ctx, key, d.value); }
  }

  lemma UpdateDimensionAdvances(
    db: Db, key: Key, expected: int, code: Option<string>, value: Option<Value>, clock: Time)
    requires RowsNamed(db)
    ensures Advances(db, UpdateDimension(db, key, expected, code, value, clock).db)
  {
    var o := UpdateDimension(db, key, expected, code, value, clock);
    if o.db != db {
      var c := if code.None? then None else Some(ParseCode(code.value).value);
      var v := if value.None? then None else ParseValue(key.slot, value.value);
      ApplyChangeAdvances(db, key, c, v, clock);
    }
  }

  lemma ExtendsItself(db: Db)
    ensures Advances(db, db)
  {
  }

  lemma CreateAdvances(db: Db, c: Command)
    requires c.DoCreateDimension? || c.DoCreateCode?
    ensures Advances(db, Exec(db, c).db)
  {
    hide Advances, DimensionChecks, Dimension.Valid, CodeTaken, ValueTaken, ValidCode, ValidValue;
    ExtendsItself(db);
    match c
    case DoCreateDimension(key, code, value, t) =>
      if Exec(db, c).reply.Ok? {
        var d := Dimension(key.id, ParseCode(code).value, ParseValue(key.slot, value).value, 1, t, t, None);
        InsertDimensionAdvances(db, Context(Some(CreateDim), None, t), key, d);
      }
    case DoCreateCode(id, refs, t) =>
      if Exec(db, c).reply.Ok? {
        var m := MasterCode.Create(id, Referenced(db, refs), t).value;
        InsertRowAdvances(db, Context(None, Some(CreateCode), t), RowOf(m));
      }
  }

  lemma LifecycleAdvances(db: Db, c: Command)
    requires RowsNamed(db)
    requires c.DoDeleteDimension? || c.DoRestoreDimension? || c.DoDeleteCode? || c.DoRestoreCode?
    ensures Advances(db, Exec(db, c).db)
  {
    if Exec(db, c).db != db {
      match c
      case DoDeleteDimension(key, v, t) =>
        var at := Later(t, db.dims[key].updatedAt);
        FinishDimensionAdvances(db, key, Context(Some(DeleteDim), None, at), db.dims[key].Delete(at));
      case DoRestoreDimension(key, v, t) =>
        var at := Later(t, db.dims[key].updatedAt);
        FinishDimensionAdvances(db, key, Context(Some(RestoreDim), None, at), db.dims[key].Restore(at));
      case DoDeleteCode(id, etag, t) =>
        var m := Load(db, id).value;
        var at := Later(t, m.updatedAt);
        FinishRowAdvances(db, Context(None, Some(DeleteCode), at), id, m.Delete(at));
      case DoRestoreCode(id, etag, t) =>
        var m := Load(db, id).value;
        var at := Later(t, m.updatedAt);
        FinishRowAdvances(db, Context(None, Some(RestoreCode), at), id, m.Restore(at));
    }
  }

  lemma ReferencesAdvance(db: Db, id: Id, changes: SlotChanges, etag: EtagVector, t: Time)
    requires RowsNamed(db)
    ensures Advances(db, UpdateReferences(db, id, changes, etag, t).db)
  {
    if UpdateReferences(db, id, changes, etag, t).db != db {
      var m := Load(db, id).value;
      var at := Later(t, db.rows[id].updatedAt);
      var refs := Resolve(db.rows[id].refs, changes);
      FinishRowAdvances(db, Context(None, Some(ReferenceUpdate), at), id, m.UpdateReferences(Referenced(db, refs), at));
    }
  }

  lemma ExecAdvances(db: Db, c: Command)
    requires Coherent(db)
    ensures Advances(db, Exec(db, c).db)
  {
    assert RowsNamed(db) by { assert forall id :: id in db.rows ==> RowOk(db, id); }
    match c
    case DoCreateDimension(_, _, _, _) => CreateAdvances(db, c);
    case DoCreateCode(_, _, _) => CreateAdvances(db, c);
    case DoUpdateDimension(key, v, code, value, t) => UpdateDimensionAdvances(db, key, v, code, value, t);
    case DoUpdateReferences(id, changes, etag, t) => ReferencesAdvance(db, id, changes, etag, t);
    case DoDeleteDimension(_, _, _) => LifecycleAdvances(db, c);
    case DoRestoreDimension(_, _, _) => LifecycleAdvances(db, c);
    case DoDeleteCode(_, _, _) => LifecycleAdvances(db, c);
    case DoRestoreCode(_, _, _) => LifecycleAdvances(db, c);
  }

  // --------------------------------------------------------------------- runs

  /** From any point of a run to any later one the store only extends, and the logs tell it. */
  lemma {:induction false} RunExtends(run: seq<Command>, i: nat, j: nat)
    requires i <= j <= |run|
    ensures Extends(After(run[..i]), After(run[..j]))
    decreases j
  {
    hide Extends, Exec, Coherent, Logged;
    if i == j {
      ExtendsReflexive(After(run[..i]));
    } else {
      RunExtends(run, i, j - 1);
      RunsAreCoherent(run[..j - 1]);
      assert run[..j][..j - 1] == run[..j - 1];
      ExecAdvances(After(run[..j - 1]), run[j - 1]);
      ExtendsTransitive(After(run[..i]), After(run[..j - 1]), After(run[..j]));
    }
  }

  lemma {:induction false} RunsAreLogged(run: seq<Command>)
    ensures Logged(After(run))
  {
    hide Coherent, Exec, Extends;
    if run == [] {
      NothingIsLogged();
    } else {
      var front := run[..|run| - 1];
      RunsAreLogged(front);
      RunsAreCoherent(front);
      ExecAdvances(After(front), run[|run| - 1]);
    }
  }

  lemma NothingIsLogged()
    ensures Logged(EMPTY)
  {
  }

  lemma EntriesArePrefix(a: seq<CodeEntry>, b: seq<CodeEntry>, id: Id)
    requires a <= b
    ensures EntriesOf(a, id) <= EntriesOf(b, id)
  {
    EntriesOfConcat(a, b[|a|..], id);
    assert b == a + b[|a|..];
  }

  /**
   Any past state of a MasterCode is recorded, at its version, in the final log; the
   final log has one chained entry per version.
   */
  lemma CodeHistoryIsKept(run: seq<Command>, i: nat, id: Id)
    requires i <= |run| && id in After(run[..i]).rows
    ensures id in After(run).rows
    ensures var es, past := EntriesOf(After(run).codeLog, id), After(run[..i]).rows[id];
            Chained(es) && |es| == After(run).rows[id].version
            && 1 <= past.version <= |es| && es[past.version - 1].next == SnapshotOf(past)
            && es[past.version - 1].changedAt == past.updatedAt
  {
    hide *;
    assert run[..|run|] == run;
    RunExtends(run, i, |run|);
    RunsAreLogged(run);
    RunsAreLogged(run[..i]);
    PastRowIsTold(After(run[..i]), After(run), id);
  }

  lemma PastRowIsTold(a: Db, b: Db, id: Id)
    requires Extends(a, b) && Logged(a) && Logged(b) && id in a.rows
    ensures id in b.rows
    ensures var es := EntriesOf(b.codeLog, id);
            Chained(es) && |es| == b.rows[id].version
            && 1 <= a.rows[id].version <= |es| && es[a.rows[id].version - 1].next == SnapshotOf(a.rows[id])
            && es[a.rows[id].version - 1].changedAt == a.rows[id].updatedAt
  {
    hide DimLogOk, DimChainOk, NewEntriesAreNewer, Link;
    EntriesArePrefix(a.codeLog, b.codeLog, id);
    assert Tells(EntriesOf(b.codeLog, id), b.rows[id]);
    assert Tells(EntriesOf(a.codeLog, id), a.rows[id]);
  }

  /** The entries of this version of the Dimension carry its update time. */
  predicate StampedAt(log: seq<DimensionEntry>, key: Key, d: Dimension) {
    forall n :: 0 <= n < |log| && log[n].key == key && log[n].version == d.version ==> log[n].changedAt == d.updatedAt
  }

  /** Replaying the final log up to a past version rebuilds the Dimension as it then was. */
  lemma DimensionHistoryIsKept(run: seq<Command>, i: nat, key: Key)
    requires i <= |run| && key in After(run[..i]).dims
    ensures Replay(After(run).dimLog, key, After(run[..i]).dims[key].version) == StateOf(After(run[..i]).dims[key])
    ensures StampedAt(After(run).dimLog, key, After(run[..i]).dims[key])
  {
    hide *;
    assert run[..|run|] == run;
    RunExtends(run, i, |run|);
    RunsAreLogged(run[..i]);
    PastDimensionIsTold(After(run[..i]), After(run), key);
  }

  lemma PastDimensionIsTold(a: Db, b: Db, key: Key)
    requires Extends(a, b) && Logged(a) && key in a.dims
    ensures Replay(b.dimLog, key, a.dims[key].version) == StateOf(a.dims[key])
    ensures StampedAt(b.dimLog, key, a.dims[key])
  {
    assert Stamped(a);
    forall n | 0 <= n < |b.dimLog| && b.dimLog[n].key == key && b.dimLog[n].version == a.dims[key].version
      ensures b.dimLog[n].changedAt == a.dims[key].updatedAt
    {
      assert n < |a.dimLog| ==> b.dimLog[n] == a.dimLog[n];
    }
    hide CodeLogOk, DimChainOk, Stamped;
    var added := b.dimLog[|a.dimLog|..];
    assert b.dimLog == a.dimLog + added;
    forall n | 0 <= n < |added| ensures added[n].key != key || added[n].version > a.dims[key].version {
      assert added[n] == b.dimLog[|a.dimLog| + n];
    }
    ReplayIgnores(a.dimLog, added, key, a.dims[key].version);
  }

  // ---------------------------------------------------------- strong validator

  function VectorOf(db: Db, id: Id): EtagVector
    requires id in db.rows
  {
    Aggregate(db, db.rows[id]).Vector()
  }

  lemma VectorAt(db: Db, id: Id, s: Slot)
    requires id in db.rows
    ensures var ref := db.rows[id].refs[s];
            ref.Some? && Key(s, ref.value) in db.dims ==>
              VectorOf(db, id).references[s]
              == Some((db.dims[Key(s, ref.value)].id, db.dims[Key(s, ref.value)].version))
  {
    assert Referenced(db, db.rows[id].refs)[s] == Lookup(db, s, db.rows[id].refs[s]);
  }

  /**
   Equal validators at two points of a run mean that nothing the MasterCode shows
   changed at any point between them: neither its own row nor any Dimension it refers to.
   */
  lemma EqualValidatorsMeanUnchanged(run: seq<Command>, i: nat, k: nat, j: nat, id: Id)
    requires i <= k <= j <= |run| && id in After(run[..i]).rows && id in After(run[..j]).rows
    requires VectorOf(After(run[..i]), id) == VectorOf(After(run[..j]), id)
    ensures id in After(run[..k]).rows
    ensures After(run[..k]).rows[id] == After(run[..i]).rows[id]
    ensures Aggregate(After(run[..k]), After(run[..k]).rows[id])
         == Aggregate(After(run[..i]), After(run[..i]).rows[id])
  {
    hide *;
    RunExtends(run, i, k);
    RunExtends(run, k, j);
    RunsAreCoherent(run[..i]);
    EqualVectorsMeanUnchanged(After(run[..i]), After(run[..k]), After(run[..j]), id);
  }

  lemma EqualVectorsMeanUnchanged(a: Db, b: Db, c: Db, id: Id)
    requires Coherent(a) && Extends(a, b) && Extends(b, c) && id in a.rows && id in c.rows
    requires VectorOf(a, id) == VectorOf(c, id)
    ensures id in b.rows && b.rows[id] == a.rows[id]
    ensures Aggregate(b, b.rows[id]) == Aggregate(a, a.rows[id])
  {
    hide NewEntriesAreNewer;
    assert a.rows[id].version == c.rows[id].version;
    var refs := a.rows[id].refs;
    assert RowOk(a, id);
    forall s: Slot ensures Referenced(b, refs)[s] == Referenced(a, refs)[s] {
      if refs[s].Some? {
        VectorAt(a, id, s);
        VectorAt(c, id, s);
        var key := Key(s, refs[s].value);
        assert a.dims[key].version == c.dims[key].version;
        assert Lookup(b, s, refs[s]) == Lookup(a, s, refs[s]);
      }
    }
    assert Referenced(b, refs) == Referenced(a, refs);
  }

  /** At one moment two MasterCodes never share a validator. */
  lemma ValidatorsAreDistinct(run: seq<Command>, i: Id, j: Id)
    requires i in After(run).rows && j in After(run).rows && VectorOf(After(run), i) == VectorOf(After(run), j)
    ensures i == j
  {
    hide *;
    RunsAreCoherent(run);
    VectorsAreDistinct(After(run), i, j);
  }

  lemma VectorsAreDistinct(db: Db, i: Id, j: Id)
    requires Coherent(db) && i in db.rows && j in db.rows && VectorOf(db, i) == VectorOf(db, j)
    ensures i == j
  {
    VectorTellsReferences(db, i);
    VectorTellsReferences(db, j);
    var a, b := db.rows[i].refs, db.rows[j].refs;
    hide VectorOf, RowOk;
    forall s: Slot ensures a[s] == b[s] {
    }
    assert a == b;
    assert ReferencesUnique(db);
  }

  function Named(entry: Option<(Id, int)>): Option<Id> { if entry.Some? then Some(entry.value.0) else None }

  /** A vector names each reference by its identifier. */
  lemma VectorTellsReferences(db: Db, id: Id)
    requires Coherent(db) && id in db.rows
    ensures |VectorOf(db, id).references| == SLOTS
    ensures forall s: Slot :: db.rows[id].refs[s] == Named(VectorOf(db, id).references[s])
  {
    assert RowOk(db, id);
    IdsOfReferenced(db, db.rows[id].refs);
    hide Coherent, RowOk;
    forall s: Slot ensures db.rows[id].refs[s] == Named(VectorOf(db, id).references[s]) {
      assert Ids(Referenced(db, db.rows[id].refs))[s] == db.rows[id].refs[s];
    }
  }
}
