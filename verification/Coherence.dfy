/**
 The store's invariant: cached codes agree with their Dimensions, active
 MasterCodes refer to active Dimensions, and the uniqueness rules hold.
 */
module Coherence {
  import opened Wrappers
  import opened Dimensions
  import opened MasterCodes
  import opened Triggers
  import opened Ordering
  import opened MasterData

  predicate DimensionsOk(db: Db) {
    forall k :: k in db.dims ==> db.dims[k].id == k.id && db.dims[k].Valid() && DimensionChecks(k.slot, db.dims[k])
  }

  predicate CodesUnique(db: Db) {
    forall k, l :: k in db.dims && l in db.dims && k.slot == l.slot && db.dims[k].code == db.dims[l].code ==> k == l
  }

  predicate ValuesUnique(db: Db) {
    forall k, l :: (k in db.dims && l in db.dims && k.slot == l.slot
                    && SameValue(db.dims[k].value, db.dims[l].value)) ==> k == l
  }

  /** Foreign keys: every reference names a stored Dimension of its type. */
  predicate Present(db: Db, refs: References) {
    forall s: Slot :: refs[s].Some? ==> Key(s, refs[s].value) in db.dims
  }

  /** The cached code is the composition of current codes, and an active row refers to active rows. */
  predicate RowOk(db: Db, id: Id)
    requires id in db.rows
  {
    db.rows[id].id == id && Present(db, db.rows[id].refs) && Aggregate(db, db.rows[id]).Valid()
  }

  predicate RowsOk(db: Db) { forall id :: id in db.rows ==> RowOk(db, id) }

  predicate ReferencesUnique(db: Db) {
    forall i, j :: i in db.rows && j in db.rows && db.rows[i].refs == db.rows[j].refs ==> i == j
  }

  predicate Coherent(db: Db) {
    DimensionsOk(db) && CodesUnique(db) && ValuesUnique(db) && RowsOk(db) && ReferencesUnique(db)
  }

  // ------------------------------------------------- composition is injective

  /** The part a reference contributes, given the Dimension it resolves to. */
  predicate PlainParts(dims: Dimensions8) {
    forall s: Slot :: HyphenFree(Part(dims[s]))
  }

  lemma PartsOfEqualCodes(a: Dimensions8, b: Dimensions8)
    requires PlainParts(a) && PlainParts(b) && Compose(a) == Compose(b)
    ensures forall s: Slot :: Part(a[s]) == Part(b[s])
  {
    var pa := seq(SLOTS, i requires 0 <= i < SLOTS => Part(a[i]));
    var pb := seq(SLOTS, i requires 0 <= i < SLOTS => Part(b[i]));
    JoinIsInjective(pa, pb);
    forall s: Slot ensures Part(a[s]) == Part(b[s]) {
      assert pa[s] == Part(a[s]) && pb[s] == Part(b[s]);
    }
  }

  lemma ReferencedIsPlain(db: Db, refs: References)
    requires DimensionsOk(db)
    ensures PlainParts(Referenced(db, refs))
  {
    forall s: Slot ensures HyphenFree(Part(Referenced(db, refs)[s])) {
      var d := Lookup(db, s, refs[s]);
      if d.Some? { ValidCodeIsPlain(d.value.code); }
    }
  }

  lemma ReferencedHasShape(db: Db, refs: References)
    requires DimensionsOk(db)
    ensures CodeShape(Compose(Referenced(db, refs)))
  {
    forall s: Slot ensures Referenced(db, refs)[s].Some? ==> ValidCode(Referenced(db, refs)[s].value.code) {
      assert Referenced(db, refs)[s] == Lookup(db, s, refs[s]);
    }
    hide Referenced, ValidCode, DimensionsOk;
    ComposedHasShape(Referenced(db, refs));
  }

  /** Every stored row satisfies the constraints of its table. */
  lemma StoredRowChecks(db: Db, id: Id)
    requires Coherent(db) && id in db.rows
    ensures RowChecks(db.rows[id])
  {
    assert RowOk(db, id);
    hide CodeShape, Referenced, Compose;
    ReferencedHasShape(db, db.rows[id].refs);
  }

  lemma StoredDimensionChecks(db: Db, key: Key)
    requires Coherent(db) && key in db.dims
    ensures DimensionChecks(key.slot, db.dims[key]) && db.dims[key].Valid() && db.dims[key].id == key.id
  {
  }

  lemma SamePartSameReference(db: Db, s: Slot, x: Option<Id>, y: Option<Id>)
    requires DimensionsOk(db) && CodesUnique(db)
    requires x.Some? ==> Key(s, x.value) in db.dims
    requires y.Some? ==> Key(s, y.value) in db.dims
    requires Part(Lookup(db, s, x)) == Part(Lookup(db, s, y))
    ensures x == y
  {
    if x.Some? { ValidCodeIsPlain(db.dims[Key(s, x.value)].code); }
    if y.Some? { ValidCodeIsPlain(db.dims[Key(s, y.value)].code); }
  }

  /** Equal composed codes mean equal reference tuples. */
  lemma CompositionIsInjective(db: Db, a: References, b: References)
    requires DimensionsOk(db) && CodesUnique(db) && Present(db, a) && Present(db, b)
    requires Compose(Referenced(db, a)) == Compose(Referenced(db, b))
    ensures a == b
  {
    ReferencedIsPlain(db, a);
    ReferencedIsPlain(db, b);
    PartsOfEqualCodes(Referenced(db, a), Referenced(db, b));
    forall s: Slot ensures a[s] == b[s] {
      assert Part(Referenced(db, a)[s]) == Part(Referenced(db, b)[s]);
      SamePartSameReference(db, s, a[s], b[s]);
    }
    assert a == b;
  }

  /** So in a coherent store no two MasterCodes, active or deleted, share a code. */
  lemma CodesNeverCollide(db: Db, i: Id, j: Id)
    requires Coherent(db) && i in db.rows && j in db.rows && db.rows[i].code == db.rows[j].code
    ensures i == j
  {
    assert RowOk(db, i) && RowOk(db, j);
    CompositionIsInjective(db, db.rows[i].refs, db.rows[j].refs);
  }

  // ------------------------------------------------------------ Dimension rows

  lemma ReferencedElsewhere(db: Db, next: Db, refs: References, key: Key)
    requires next.dims.Keys == db.dims.Keys || next.dims.Keys == db.dims.Keys + {key}
    requires forall k :: k in db.dims && k != key ==> next.dims[k] == db.dims[k]
    requires Present(db, refs)
    requires refs[key.slot] != Some(key.id)
    ensures Referenced(next, refs) == Referenced(db, refs)
  {
    forall s: Slot ensures Referenced(next, refs)[s] == Referenced(db, refs)[s] {
      assert Lookup(next, s, refs[s]) == Lookup(db, s, refs[s]);
    }
  }

  lemma ReferencedThere(db: Db, next: Db, refs: References, key: Key, d: Dimension)
    requires key in db.dims && next.dims == db.dims[key := d]
    requires refs[key.slot] == Some(key.id)
    ensures Referenced(next, refs) == Referenced(db, refs)[key.slot := Some(d)]
  {
    forall s: Slot ensures Referenced(next, refs)[s] == Referenced(db, refs)[key.slot := Some(d)][s] {
      assert Lookup(next, s, refs[s]) == if s == key.slot then Some(d) else Lookup(db, s, refs[s]);
    }
  }

  lemma ComposeReadsParts(a: Dimensions8, b: Dimensions8)
    requires forall s: Slot :: Part(a[s]) == Part(b[s])
    ensures Compose(a) == Compose(b)
  {
    assert seq(SLOTS, i requires 0 <= i < SLOTS => Part(a[i]))
        == seq(SLOTS, i requires 0 <= i < SLOTS => Part(b[i]));
  }

  /** Replacing one Dimension by another state of it: a row is judged by its resolved Dimensions only. */
  lemma RowJudged(db: Db, id: Id, dims: Dimensions8)
    requires id in db.rows && db.rows[id].id == id && Present(db, db.rows[id].refs)
    requires dims == Referenced(db, db.rows[id].refs)
    requires RowTimes(db.rows[id]) && (db.rows[id].version == 1 ==> db.rows[id].updatedAt == db.rows[id].createdAt)
    requires db.rows[id].code == Compose(dims)
    requires db.rows[id].deletedAt.None? ==> forall s: Slot :: dims[s].Some? ==> !dims[s].value.IsDeleted()
    ensures RowOk(db, id)
  {
  }

  lemma DimensionTableKept(db: Db, next: Db, key: Key, d: Dimension)
    requires DimensionsOk(db) && CodesUnique(db) && ValuesUnique(db)
    requires next.dims == db.dims[key := d]
    requires d.id == key.id && d.Valid() && DimensionChecks(key.slot, d)
    requires !CodeTaken(db, key, d.code) && !ValueTaken(db, key, d.value)
    ensures DimensionsOk(next) && CodesUnique(next) && ValuesUnique(next)
  {
    forall k, l | k in next.dims && l in next.dims && k.slot == l.slot
      && SameValue(next.dims[k].value, next.dims[l].value) ensures k == l
    {
      SameValueIsEquivalence(next.dims[k].value, next.dims[l].value, next.dims[l].value);
    }
  }

  lemma CreateDimensionKeeps(db: Db, key: Key, code: string, value: Value, clock: Time)
    requires Coherent(db)
    ensures var o := CreateDimension(db, key, code, value, clock);
            Coherent(o.db) && o.reply != Err(Corrupt) && o.reply != Err(Rejected)
  {
    hide Coherent, CodeTaken, ValueTaken, ValidCode, ValidValue, AllEntryChecks, InsertEntries;
    var o := CreateDimension(db, key, code, value, clock);
    if ParseCode(code).Ok? && ParseValue(key.slot, value).Some? {
      var d := Dimension(key.id, ParseCode(code).value, ParseValue(key.slot, value).value, 1, clock, clock, None);
      InsertEntriesChecked(key, d);
      if o.reply.Ok? { Created(db, o.db, key, d); }
    }
  }

  lemma Created(db: Db, next: Db, key: Key, d: Dimension)
    requires Coherent(db) && key !in db.dims && next.dims == db.dims[key := d] && next.rows == db.rows
    requires d.id == key.id && d.Valid() && DimensionChecks(key.slot, d)
    requires !CodeTaken(db, key, d.code) && !ValueTaken(db, key, d.value)
    ensures Coherent(next)
  {
    DimensionTableKept(db, next, key, d);
    hide RowOk;
    forall id | id in next.rows ensures RowOk(next, id) {
      RowStays(db, next, key, d, id);
    }
  }

  lemma RowStays(db: Db, next: Db, key: Key, d: Dimension, id: Id)
    requires Coherent(db) && key !in db.dims && next.dims == db.dims[key := d] && next.rows == db.rows
    requires id in db.rows
    ensures RowOk(next, id)
  {
    var r := db.rows[id];
    assert RowOk(db, id);
    assert r.refs[key.slot] != Some(key.id);
    ReferencedElsewhere(db, next, r.refs, key);
    RowJudged(next, id, Referenced(db, r.refs));
  }

  /** A change of one Dimension that keeps its code leaves every composition as it was. */
  lemma SameCodeSameComposition(db: Db, next: Db, key: Key, d: Dimension, id: Id)
    requires Coherent(db) && id in db.rows
    requires key in db.dims && next.dims == db.dims[key := d] && next.rows == db.rows
    requires d.code == db.dims[key].code
    requires d.IsDeleted() ==> db.dims[key].IsDeleted() || !InUse(db, key)
    ensures RowOk(next, id)
  {
    var r := db.rows[id];
    assert RowOk(db, id);
    var a := Referenced(db, r.refs);
    if Refers(r, key) {
      ReferencedThere(db, next, r.refs, key, d);
      assert a[key.slot] == Some(db.dims[key]);
      ComposeReadsParts(a, a[key.slot := Some(d)]);
      RowJudged(next, id, a[key.slot := Some(d)]);
    } else {
      ReferencedElsewhere(db, next, r.refs, key);
      RowJudged(next, id, a);
    }
  }

  lemma LifecycleWritten(db: Db, next: Db, key: Key, d: Dimension)
    requires Coherent(db) && key in db.dims
    requires next.dims == db.dims[key := d] && next.rows == db.rows
    requires d.id == key.id && d.Valid() && DimensionChecks(key.slot, d)
    requires d.code == db.dims[key].code && !CodeTaken(db, key, d.code) && !ValueTaken(db, key, d.value)
    requires d.IsDeleted() ==> db.dims[key].IsDeleted() || !InUse(db, key)
    ensures Coherent(next)
  {
    DimensionTableKept(db, next, key, d);
    forall id | id in next.rows ensures RowOk(next, id) {
      SameCodeSameComposition(db, next, key, d, id);
    }
  }

  lemma OwnCodeIsFree(db: Db, key: Key)
    requires Coherent(db) && key in db.dims
    ensures !CodeTaken(db, key, db.dims[key].code) && !ValueTaken(db, key, db.dims[key].value)
  {
  }

  /** Finishing a deletion or restoration that the guard admits always succeeds. */
  lemma FinishDimensionKeeps(db: Db, key: Key, ctx: Context, d: Dimension)
    requires Coherent(db) && key in db.dims && d.Valid()
    requires ctx.dimension == Some(DeleteDim) || ctx.dimension == Some(RestoreDim)
    requires LifecycleAllowed(ctx, db.dims[key], d, InUse(db, key))
    ensures var o := FinishDimension(db, key, ctx, Ok(d));
      Coherent(o.db) && o.reply == Ok(DimensionReply(d)) && o.db.rows == db.rows && o.db.dims == db.dims[key := d]
  {
    StoredDimensionChecks(db, key);
    OwnCodeIsFree(db, key);
    assert DimensionChecks(key.slot, d);
    UpdateEntriesChecked(key, db.dims[key], d);
    hide Coherent, CodeTaken, ValueTaken, InUse, DimensionChecks, AllEntryChecks, UpdateEntries, Dimension.Valid;
    LifecycleWritten(db, FinishDimension(db, key, ctx, Ok(d)).db, key, d);
  }

  lemma DeletionIsAllowed(db: Db, key: Key, at: Time)
    requires Coherent(db) && key in db.dims && !db.dims[key].IsDeleted() && !InUse(db, key)
    requires db.dims[key].updatedAt <= at
    ensures var d := db.dims[key].(deletedAt := Some(at), updatedAt := at, version := db.dims[key].version + 1);
      && db.dims[key].Delete(at) == Ok(d) && d.Valid()
      && LifecycleAllowed(Context(Some(DeleteDim), None, at), db.dims[key], d, InUse(db, key))
  {
    StoredDimensionChecks(db, key);
    hide Coherent, InUse, DimensionChecks;
  }

  lemma RestorationIsAllowed(db: Db, key: Key, at: Time)
    requires Coherent(db) && key in db.dims && db.dims[key].IsDeleted() && db.dims[key].updatedAt <= at
    ensures var d := db.dims[key].(deletedAt := None, updatedAt := at, version := db.dims[key].version + 1);
      && db.dims[key].Restore(at) == Ok(d) && d.Valid()
      && LifecycleAllowed(Context(Some(RestoreDim), None, at), db.dims[key], d, InUse(db, key))
  {
    StoredDimensionChecks(db, key);
    hide Coherent, InUse, DimensionChecks;
  }

  lemma DeleteDimensionKeeps(db: Db, key: Key, expected: int, clock: Time)
    requires Coherent(db)
    ensures var o := DeleteDimension(db, key, expected, clock);
            Coherent(o.db) && o.reply != Err(Corrupt) && o.reply != Err(Rejected)
  {
    hide Coherent, InUse, FinishDimension, LifecycleAllowed, Dimension.Valid, Dimension.Delete;
    if key in db.dims && !db.dims[key].IsDeleted() && !InUse(db, key) {
      var at := Later(clock, db.dims[key].updatedAt);
      DeletionIsAllowed(db, key, at);
      FinishDimensionKeeps(db, key, Context(Some(DeleteDim), None, at), db.dims[key].Delete(at).value);
    }
  }

  lemma RestoreDimensionKeeps(db: Db, key: Key, expected: int, clock: Time)
    requires Coherent(db)
    ensures var o := RestoreDimension(db, key, expected, clock);
            Coherent(o.db) && o.reply != Err(Corrupt) && o.reply != Err(Rejected)
  {
    hide Coherent, InUse, FinishDimension, LifecycleAllowed, Dimension.Valid, Dimension.Restore;
    if key in db.dims && db.dims[key].IsDeleted() {
      var at := Later(clock, db.dims[key].updatedAt);
      RestorationIsAllowed(db, key, at);
      FinishDimensionKeeps(db, key, Context(Some(RestoreDim), None, at), db.dims[key].Restore(at).value);
    }
  }
}
