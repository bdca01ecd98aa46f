/**
 Changing a Dimension's code rewrites every referencing MasterCode row by row.
 At no point of that loop do two rows share a code, so it always finishes.
 */
module Recomposition {
  import opened Wrappers
  import opened Dimensions
  import opened MasterCodes
  import opened Triggers
  import opened Ordering
  import opened MasterData
  import opened Coherence

  function NextDims(base: Db, key: Key, d: Dimension, id: Id): Dimensions8
    requires id in base.rows
  {
    Referenced(base, base.rows[id].refs)[key.slot := Some(d)]
  }

  function Recomposed(base: Db, key: Key, d: Dimension, at: Time, id: Id): Row
    requires id in base.rows
  {
    base.rows[id].(code := Compose(NextDims(base, key, d, id)), version := base.rows[id].version + 1, updatedAt := at)
  }

  /** `d` is the Dimension stored at `key`, moved to a code that its table does not use. */
  predicate Recoded(base: Db, key: Key, d: Dimension) {
    key in base.dims && d.id == key.id && d.Valid() && DimensionChecks(key.slot, d)
    && d.code != base.dims[key].code && d.IsDeleted() == base.dims[key].IsDeleted()
    && !CodeTaken(base, key, d.code) && !ValueTaken(base, key, d.value)
  }

  lemma NextDimsArePlain(base: Db, key: Key, d: Dimension, id: Id)
    requires Coherent(base) && Recoded(base, key, d) && id in base.rows
    ensures PlainParts(NextDims(base, key, d, id))
  {
    ReferencedIsPlain(base, base.rows[id].refs);
    ValidCodeIsPlain(d.code);
  }

  /** A recomposed code has the stored shape. */
  lemma NextDimsHaveShape(base: Db, key: Key, d: Dimension, id: Id)
    requires DimensionsOk(base) && ValidCode(d.code) && id in base.rows
    ensures CodeShape(Compose(NextDims(base, key, d, id)))
  {
    var dims := NextDims(base, key, d, id);
    forall s: Slot ensures dims[s].Some? ==> ValidCode(dims[s].value.code) {
      if s != key.slot { assert dims[s] == Lookup(base, s, base.rows[id].refs[s]); }
    }
    hide NextDims, ValidCode, DimensionsOk;
    ComposedHasShape(dims);
  }

  /** A recomposed code differs from every code of the old store, its own included. */
  lemma NewCodeIsNew(base: Db, key: Key, d: Dimension, id: Id, other: Id)
    requires Coherent(base) && Recoded(base, key, d) && id in base.rows && other in base.rows
    ensures Compose(NextDims(base, key, d, id)) != base.rows[other].code
  {
    assert RowOk(base, other);
    var theirs := Referenced(base, base.rows[other].refs);
    var s := key.slot;
    ValidCodeIsPlain(d.code);
    assert theirs[s] == Lookup(base, s, base.rows[other].refs[s]);
    assert Part(theirs[s]) != d.code;
    if Compose(NextDims(base, key, d, id)) == Compose(theirs) {
      NextDimsArePlain(base, key, d, id);
      ReferencedIsPlain(base, base.rows[other].refs);
      PartsOfEqualCodes(NextDims(base, key, d, id), theirs);
    }
  }

  /** Two recomposed rows differ because they already differed elsewhere. */
  lemma RecomposedDiffer(base: Db, key: Key, d: Dimension, id: Id, other: Id)
    requires Coherent(base) && Recoded(base, key, d) && id in base.rows && other in base.rows
    requires Refers(base.rows[id], key) && Refers(base.rows[other], key)
    requires Compose(NextDims(base, key, d, id)) == Compose(NextDims(base, key, d, other))
    ensures id == other
  {
    assert RowOk(base, id) && RowOk(base, other);
    var a, b := base.rows[id].refs, base.rows[other].refs;
    NextDimsArePlain(base, key, d, id);
    NextDimsArePlain(base, key, d, other);
    PartsOfEqualCodes(NextDims(base, key, d, id), NextDims(base, key, d, other));
    forall s: Slot ensures a[s] == b[s] {
      if s != key.slot {
        assert Part(NextDims(base, key, d, id)[s]) == Part(Lookup(base, s, a[s]));
        assert Part(NextDims(base, key, d, other)[s]) == Part(Lookup(base, s, b[s]));
        SamePartSameReference(base, s, a[s], b[s]);
      }
    }
    assert a == b;
  }

  /** The store midway through the loop: rows in `done` are recomposed, the others untouched. */
  predicate Midway(base: Db, db: Db, key: Key, d: Dimension, at: Time, done: seq<Id>) {
    db.rows.Keys == base.rows.Keys
    && forall id :: id in base.rows ==>
         db.rows[id] == if id in done then Recomposed(base, key, d, at, id) else base.rows[id]
  }

  predicate ReadyToRecompose(base: Db, key: Key, d: Dimension, ctx: Context, id: Id) {
    id in base.rows && Refers(base.rows[id], key) && base.rows[id].updatedAt <= ctx.timestamp
    && ctx.masterCode == Some(Recompose)
  }

  lemma LoadSucceeds(db: Db, id: Id)
    requires Coherent(db) && id in db.rows
    ensures Load(db, id) == Ok(Aggregate(db, db.rows[id]))
  {
    assert RowOk(db, id);
  }

  lemma IdsOfReferenced(db: Db, refs: References)
    requires DimensionsOk(db) && Present(db, refs)
    ensures Ids(Referenced(db, refs)) == refs
  {
    forall s: Slot ensures Ids(Referenced(db, refs))[s] == refs[s] {
      assert Referenced(db, refs)[s] == Lookup(db, s, refs[s]);
    }
  }

  lemma AggregateRecomposes(m: MasterCode, slot: Slot, d: Dimension, at: Time)
    requires m.Valid() && m.dims[slot].Some? && m.dims[slot].value.id == d.id
    requires d.IsDeleted() == m.dims[slot].value.IsDeleted()
    requires Compose(m.dims[slot := Some(d)]) != m.code && m.updatedAt <= at
    ensures var next := m.dims[slot := Some(d)];
            m.Recompose(next, at)
            == Ok(m.(dims := next, code := Compose(next), version := m.version + 1, updatedAt := at))
  {
    assert Ids(m.dims[slot := Some(d)]) == Ids(m.dims);
  }

  /** The domain transition of one locked row is the recomposed row. */
  lemma DomainRecomposes(base: Db, db: Db, key: Key, d: Dimension, ctx: Context, id: Id)
    requires Coherent(base) && Recoded(base, key, d) && ReadyToRecompose(base, key, d, ctx, id)
    requires id in db.rows && db.rows[id] == base.rows[id]
    ensures RecomposeRow(db, base, ctx, key.slot, d, id)
         == WriteRow(db, ctx, id, Recomposed(base, key, d, ctx.timestamp, id))
  {
    hide Coherent, Compose, MasterCode.Valid, MasterCode.Recompose, Load, WriteRow;
    LoadSucceeds(base, id);
    RowIsOk(base, id);
    var current := Load(base, id).value;
    assert current.dims[key.slot] == Lookup(base, key.slot, base.rows[id].refs[key.slot]);
    NewCodeIsNew(base, key, d, id, id);
    AggregateRecomposes(current, key.slot, d, ctx.timestamp);
  }

  lemma RowIsOk(db: Db, id: Id)
    requires Coherent(db) && id in db.rows
    ensures RowOk(db, id) && DimensionsOk(db)
  {
  }

  lemma NoCollisionMidway(base: Db, db: Db, key: Key, d: Dimension, at: Time, done: seq<Id>, id: Id)
    requires Coherent(base) && Recoded(base, key, d) && id in base.rows && Refers(base.rows[id], key)
    requires Midway(base, db, key, d, at, done)
    requires forall i :: i in done ==> i in base.rows && Refers(base.rows[i], key)
    ensures !RowCollides(db, id, Recomposed(base, key, d, at, id))
  {
    var row := Recomposed(base, key, d, at, id);
    forall other | other in db.rows && other != id
      ensures db.rows[other].code != row.code && db.rows[other].refs != row.refs
    {
      NewCodeIsNew(base, key, d, id, other);
      if other in done && db.rows[other].code == row.code { RecomposedDiffer(base, key, d, id, other); }
      assert ReferencesUnique(base);
    }
  }

  lemma GuardAdmits(base: Db, key: Key, d: Dimension, ctx: Context, id: Id)
    requires Coherent(base) && Recoded(base, key, d) && ReadyToRecompose(base, key, d, ctx, id)
    ensures var row := Recomposed(base, key, d, ctx.timestamp, id);
            RowUpdateAllowed(ctx, base.rows[id], row) && RowChecks(row)
            && CodeEntryChecks(UpdateEntry(ctx.masterCode.value, base.rows[id], row))
  {
    RowIsOk(base, id);
    StoredRowChecks(base, id);
    NewCodeIsNew(base, key, d, id, id);
    NextDimsHaveShape(base, key, d, id);
    hide Coherent, RowOk, CodeShape, Compose, NextDims, DimensionChecks;
    UpdateEntryChecked(ctx, base.rows[id], Recomposed(base, key, d, ctx.timestamp, id));
  }

  /** One turn of the loop: guard, constraints and log admit the row, and no code collides. */
  lemma OneRow(base: Db, db: Db, key: Key, d: Dimension, ctx: Context, done: seq<Id>, id: Id)
    requires Coherent(base) && Recoded(base, key, d) && ReadyToRecompose(base, key, d, ctx, id)
    requires Midway(base, db, key, d, ctx.timestamp, done) && id !in done
    requires forall i :: i in done ==> i in base.rows && Refers(base.rows[i], key)
    ensures var r := RecomposeRow(db, base, ctx, key.slot, d, id);
            r.Ok? && r.value.dims == db.dims && r.value.dimLog == db.dimLog
            && Midway(base, r.value, key, d, ctx.timestamp, done + [id])
  {
    hide Coherent, Recoded, RecomposeRow, Recomposed, RowUpdateAllowed, RowChecks, CodeEntryChecks, RowCollides;
    assert db.rows[id] == base.rows[id];
    DomainRecomposes(base, db, key, d, ctx, id);
    GuardAdmits(base, key, d, ctx, id);
    NoCollisionMidway(base, db, key, d, ctx.timestamp, done, id);
    var row := Recomposed(base, key, d, ctx.timestamp, id);
    var r := WriteRow(db, ctx, id, row).value;
    assert r.rows == db.rows[id := row];
    MidwayGrows(base, db, r, key, d, ctx.timestamp, done, id);
  }

  lemma MidwayGrows(base: Db, db: Db, next: Db, key: Key, d: Dimension, at: Time, done: seq<Id>, id: Id)
    requires Midway(base, db, key, d, at, done) && id in base.rows
    requires next.rows == db.rows[id := Recomposed(base, key, d, at, id)]
    ensures Midway(base, next, key, d, at, done + [id])
  {
  }

  lemma LastTurn(db: Db, base: Db, ctx: Context, slot: Slot, d: Dimension, front: seq<Id>, id: Id)
    requires forall i :: i in front + [id] ==> i in base.rows && i in db.rows
    requires RecomposeRows(db, base, ctx, slot, d, front).Ok?
    ensures RecomposeRows(db, base, ctx, slot, d, front + [id])
         == RecomposeRow(RecomposeRows(db, base, ctx, slot, d, front).value, base, ctx, slot, d, id)
  {
    assert (front + [id])[..|front|] == front;
  }

  lemma {:induction false} EveryRow(base: Db, start: Db, key: Key, d: Dimension, ctx: Context, ids: seq<Id>)
    requires forall id :: id in ids ==> id in base.rows
    requires start.rows == base.rows
    requires forall id :: id in ids ==> ReadyToRecompose(base, key, d, ctx, id)
    requires Coherent(base) && Recoded(base, key, d) && Distinct(ids)
    ensures var r := RecomposeRows(start, base, ctx, key.slot, d, ids);
            r.Ok? && r.value.dims == start.dims && r.value.dimLog == start.dimLog
            && Midway(base, r.value, key, d, ctx.timestamp, ids)
  {
    hide Coherent, Recoded, RecomposeRow, Midway;
    if ids == [] {
      MidwayStarts(base, start, key, d, ctx.timestamp);
    } else {
      var front, id := ids[..|ids| - 1], ids[|ids| - 1];
      assert front + [id] == ids;
      assert id in ids && id !in front;
      assert forall i :: i in front ==> i in ids;
      EveryRow(base, start, key, d, ctx, front);
      LastTurn(start, base, ctx, key.slot, d, front, id);
      OneRow(base, RecomposeRows(start, base, ctx, key.slot, d, front).value, key, d, ctx, front, id);
    }
  }

  lemma MidwayStarts(base: Db, start: Db, key: Key, d: Dimension, at: Time)
    requires start.rows == base.rows
    ensures Midway(base, start, key, d, at, [])
  {
  }

  /** After the loop every code, recomposed or not, is the composition of the current codes. */
  lemma RecodedStoreIsCoherent(base: Db, next: Db, key: Key, d: Dimension, at: Time, ids: seq<Id>)
    requires Coherent(base) && Recoded(base, key, d)
    requires next.dims == base.dims[key := d] && Midway(base, next, key, d, at, ids)
    requires forall id :: id in ids <==> id in base.rows && Refers(base.rows[id], key)
    requires forall id :: id in ids ==> base.rows[id].updatedAt <= at
    ensures Coherent(next)
  {
    hide Recoded, RowOk, Recomposed;
    RecodedTable(base, next, key, d);
    forall id | id in next.rows ensures RowOk(next, id) {
      hide Coherent;
      if Refers(base.rows[id], key) {
        RecomposedRowOk(base, next, key, d, at, id);
      } else {
        UntouchedRowOk(base, next, key, d, id);
      }
    }
    SameReferencesStayUnique(base, next, key, d, at, ids);
  }

  lemma RecodedTable(base: Db, next: Db, key: Key, d: Dimension)
    requires Coherent(base) && Recoded(base, key, d) && next.dims == base.dims[key := d]
    ensures key in base.dims && DimensionsOk(next) && CodesUnique(next) && ValuesUnique(next)
  {
    hide RowOk;
    DimensionTableKept(base, next, key, d);
  }

  lemma SameReferencesStayUnique(base: Db, next: Db, key: Key, d: Dimension, at: Time, ids: seq<Id>)
    requires Coherent(base) && Midway(base, next, key, d, at, ids)
    ensures ReferencesUnique(next)
  {
    hide RowOk;
    assert ReferencesUnique(base);
    assert forall id :: id in base.rows ==> next.rows[id].refs == base.rows[id].refs;
  }

  lemma RecomposedRowOk(base: Db, next: Db, key: Key, d: Dimension, at: Time, id: Id)
    requires Coherent(base) && Recoded(base, key, d) && id in base.rows && id in next.rows
    requires next.dims == base.dims[key := d] && next.rows[id] == Recomposed(base, key, d, at, id)
    requires Refers(base.rows[id], key) && base.rows[id].updatedAt <= at
    ensures RowOk(next, id)
  {
    var r := base.rows[id];
    assert RowOk(base, id);
    ReferencedThere(base, next, r.refs, key, d);
    assert Referenced(base, r.refs)[key.slot] == Some(base.dims[key]);
    RowJudged(next, id, NextDims(base, key, d, id));
  }

  lemma UntouchedRowOk(base: Db, next: Db, key: Key, d: Dimension, id: Id)
    requires Coherent(base) && id in base.rows && id in next.rows && next.rows[id] == base.rows[id]
    requires key in base.dims && next.dims == base.dims[key := d] && !Refers(base.rows[id], key)
    ensures RowOk(next, id)
  {
    var r := base.rows[id];
    assert RowOk(base, id);
    ReferencedElsewhere(base, next, r.refs, key);
    RowJudged(next, id, Referenced(base, r.refs));
  }

  /** What the repository has checked when it starts to write. */
  predicate MayUpdate(db: Db, key: Key, code: Option<string>, value: Option<Value>) {
    && key in db.dims && !db.dims[key].IsDeleted()
    && (ChangesCode(db.dims[key], code) || ChangesValue(db.dims[key], value))
    && (code.Some? ==> ValidCode(code.value))
    && (value.Some? ==> ValidValue(key.slot, value.value))
    && (ChangesCode(db.dims[key], code) ==> !CodeTaken(db, key, code.value))
    && (ChangesValue(db.dims[key], value) ==> !ValueTaken(db, key, value.value))
  }

  /** The Dimension after an update: new code, new value only if not equivalent, next version. */
  predicate Updated(a: Dimension, b: Dimension, code: Option<string>, value: Option<Value>, clock: Time) {
    && b.id == a.id && b.createdAt == a.createdAt && b.deletedAt == a.deletedAt
    && b.code == (if code.Some? then code.value else a.code)
    && (value.Some? ==> SameValue(b.value, value.value))
    && b.value == (if ChangesValue(a, value) then value.value else a.value)
    && b.version == a.version + 1 && b.updatedAt >= a.updatedAt && b.updatedAt >= clock
  }

  lemma ChangeIsUpdate(d: Dimension, code: Option<string>, value: Option<Value>, at: Time, clock: Time)
    requires ChangesCode(d, code) || ChangesValue(d, value)
    requires at >= d.updatedAt && at >= clock
    ensures d.Change(code, value, at).Ok? && Updated(d, d.Change(code, value, at).value, code, value, clock)
  {
    if value.Some? {
      SameValueIsEquivalence(d.value, value.value, d.value);
      SameValueIsEquivalence(value.value, d.value, d.value);
    }
  }

  /** The changed Dimension still satisfies its table's constraints and is unique. */
  lemma ChangedIsStorable(db: Db, key: Key, code: Option<string>, value: Option<Value>, at: Time)
    requires Coherent(db) && MayUpdate(db, key, code, value) && at >= db.dims[key].updatedAt
    ensures db.dims[key].Change(code, value, at).Ok?
    ensures var d := db.dims[key].Change(code, value, at).value;
      d.id == key.id && d.Valid() && DimensionChecks(key.slot, d)
      && !CodeTaken(db, key, d.code) && !ValueTaken(db, key, d.value)
  {
    OwnCodeIsFree(db, key);
    StoredDimensionChecks(db, key);
    hide Coherent, CodeTaken, ValueTaken, ValidCode, ValidValue;
  }

  /** The write of the Dimension itself passes guard, constraints, uniqueness and log. */
  lemma UpdateIsAdmitted(db: Db, key: Key, code: Option<string>, value: Option<Value>, at: Time, clock: Time)
    requires Coherent(db) && MayUpdate(db, key, code, value) && at >= db.dims[key].updatedAt && at >= clock
    ensures var current := db.dims[key];
      var ctx := Context(Some(UpdateDim), if code.Some? then Some(Recompose) else None, at);
      && current.Change(code, value, at).Ok?
      && var d := current.Change(code, value, at).value;
         && WriteDimension(db, ctx, key, d)
            == Ok(db.(dims := db.dims[key := d], dimLog := db.dimLog + UpdateEntries(key, current, d)))
         && Updated(current, d, code, value, clock) && d.updatedAt == at
         && (ChangesCode(current, code) ==> Recoded(db, key, d))
  {
    ChangedIsStorable(db, key, code, value, at);
    StoredDimensionChecks(db, key);
    ChangeIsUpdate(db.dims[key], code, value, at, clock);
    var d := db.dims[key].Change(code, value, at).value;
    UpdateEntriesChecked(key, db.dims[key], d);
    hide Coherent, CodeTaken, ValueTaken, InUse, DimensionChecks, AllEntryChecks, UpdateEntries, ValidCode, ValidValue;
  }

  lemma ApplyChangeKeeps(db: Db, key: Key, code: Option<string>, value: Option<Value>, clock: Time)
    requires Coherent(db) && MayUpdate(db, key, code, value)
    ensures var o := ApplyChange(db, key, code, value, clock); Coherent(o.db) && o.reply.Ok?
  {
    var current := db.dims[key];
    var recoded := ChangesCode(current, code);
    var ids := if recoded then Ascending(Referencing(db, key)) else [];
    var at := Later(clock, LatestUpdate(db, ids, current.updatedAt));
    var ctx := Context(Some(UpdateDim), if code.Some? then Some(Recompose) else None, at);
    UpdateIsAdmitted(db, key, code, value, at, clock);
    ChangedIsStorable(db, key, code, value, at);
    hide Coherent, WriteDimension, Recoded, UpdateEntries, Dimension.Change, RecomposeRows, Refers, LatestUpdate,
      CodeTaken, ValueTaken, ValidCode, ValidValue, Midway, DimensionChecks, Dimension.Valid;
    var d := current.Change(code, value, at).value;
    var mid := WriteDimension(db, ctx, key, d).value;
    if recoded {
      assert forall id :: id in ids <==> id in db.rows && Refers(db.rows[id], key);
      EveryRow(db, mid, key, d, ctx, ids);
      RecodedStoreIsCoherent(db, RecomposeRows(mid, db, ctx, key.slot, d, ids).value, key, d, at, ids);
    } else {
      NothingToRecompose(mid, db, ctx, key.slot, d);
      LifecycleWritten(db, mid, key, d);
    }
  }

  lemma NothingToRecompose(db: Db, base: Db, ctx: Context, slot: Slot, d: Dimension)
    ensures RecomposeRows(db, base, ctx, slot, d, []) == Ok(db)
  {
  }

  lemma UpdateDimensionKeeps(
    db: Db, key: Key, expected: int, code: Option<string>, value: Option<Value>, clock: Time)
    requires Coherent(db)
    ensures var o := UpdateDimension(db, key, expected, code, value, clock);
            Coherent(o.db) && o.reply != Err(Corrupt) && o.reply != Err(Rejected)
            && o.reply != Err(MasterCodeConflict)
  {
    hide Coherent, ApplyChange, CodeTaken, ValueTaken;
    if key in db.dims && !db.dims[key].IsDeleted()
       && (code.Some? ==> ParseCode(code.value).Ok?)
       && (value.Some? ==> ParseValue(key.slot, value.value).Some?)
    {
      var c := if code.None? then None else Some(ParseCode(code.value).value);
      var v := if value.None? then None else ParseValue(key.slot, value.value);
      var current := db.dims[key];
      if (ChangesCode(current, c) || ChangesValue(current, v))
         && !(ChangesCode(current, c) && CodeTaken(db, key, c.value))
         && !(ChangesValue(current, v) && ValueTaken(db, key, v.value))
      {
        ApplyChangeKeeps(db, key, c, v, clock);
      }
    }
  }
}
