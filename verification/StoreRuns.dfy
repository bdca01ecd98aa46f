/** Every command keeps the store coherent, so every run does. */
module StoreRuns {
  import opened Wrappers
  import opened Dimensions
  import opened MasterCodes
  import opened Triggers
  import opened MasterData
  import opened Coherence
  import opened Recomposition

  // ------------------------------------------------------------- row commands

  /** Writing one row whose code is composed from present, suitable Dimensions. */
  lemma RowWritten(db: Db, next: Db, id: Id, r: Row)
    requires Coherent(db) && next.dims == db.dims && next.rows == db.rows[id := r]
    requires r.id == id && Present(db, r.refs) && Aggregate(db, r).Valid()
    requires forall i :: i in db.rows && i != id ==> db.rows[i].refs != r.refs
    ensures Coherent(next)
  {
    forall i | i in next.rows ensures RowOk(next, i) {
      assert Referenced(next, next.rows[i].refs) == Referenced(db, next.rows[i].refs);
      if i != id { assert RowOk(db, i); }
    }
  }

  lemma UsableIsPresent(db: Db, refs: References)
    requires AllUsable(db, refs)
    ensures Present(db, refs)
    ensures forall s: Slot :: Referenced(db, refs)[s].Some? ==> !Referenced(db, refs)[s].value.IsDeleted()
  {
    forall s: Slot ensures refs[s].Some? ==> Key(s, refs[s].value) in db.dims {
      assert Usable(db, s, refs[s]);
    }
    forall s: Slot ensures Referenced(db, refs)[s].Some? ==> !Referenced(db, refs)[s].value.IsDeleted() {
      assert Usable(db, s, refs[s]);
      assert Referenced(db, refs)[s] == Lookup(db, s, refs[s]);
    }
  }

  lemma CreateCodeKeeps(db: Db, id: Id, refs: References, clock: Time)
    requires Coherent(db)
    ensures var o := CreateMasterCode(db, id, refs, clock);
            Coherent(o.db) && o.reply != Err(Corrupt) && o.reply != Err(Rejected)
  {
    if id !in db.rows && AllUsable(db, refs) {
      UsableIsPresent(db, refs);
      IdsOfReferenced(db, refs);
      var m := MasterCode(id, Referenced(db, refs), Compose(Referenced(db, refs)), 1, clock, clock, None);
      assert MasterCode.Create(id, Referenced(db, refs), clock) == Ok(m);
      AggregateRowChecks(db, m);
      hide CodeShape;
      var o := CreateMasterCode(db, id, refs, clock);
      if o.reply.Ok? { RowWritten(db, o.db, id, RowOf(m)); }
    }
  }

  /** One row is written, everything else stays. */
  predicate OnlyRow(a: Db, b: Db, id: Id) {
    && b.dims == a.dims && b.dimLog == a.dimLog && b.rows.Keys == a.rows.Keys
    && forall i :: i in a.rows && i != id ==> b.rows[i] == a.rows[i]
  }

  /** Finishing a row command that the guard admits fails only on a collision. */
  lemma FinishWrites(db: Db, ctx: Context, id: Id, m: MasterCode)
    requires Coherent(db) && id in db.rows && RowUpdateAllowed(ctx, db.rows[id], RowOf(m))
    requires m.dims == Referenced(db, Ids(m.dims)) && m.Valid()
    ensures var o := FinishRow(db, ctx, id, Ok(m));
      if RowCollides(db, id, RowOf(m)) then o == Outcome(db, Err(MasterCodeConflict))
      else o.reply == Ok(CodeReply(m)) && OnlyRow(db, o.db, id) && id in o.db.rows && o.db.rows[id] == RowOf(m)
  {
    hide RowChecks, RowUpdateAllowed, Referenced, MasterCode.Valid, RowCollides, CodeEntryChecks, RowOk, UpdateEntry;
    AggregateRowChecks(db, m);
    StoredRowChecks(db, id);
    UpdateEntryChecked(ctx, db.rows[id], RowOf(m));
    hide Coherent;
  }

  /** Finishing a row command: an accepted aggregate becomes a coherent row. */
  lemma FinishKeeps(db: Db, ctx: Context, id: Id, m: MasterCode, refs: References)
    requires Coherent(db) && id in db.rows && m.id == id && m.Valid()
    requires Present(db, refs) && m.dims == Referenced(db, refs)
    requires RowUpdateAllowed(ctx, db.rows[id], RowOf(m))
    ensures var o := FinishRow(db, ctx, id, Ok(m));
            Coherent(o.db) && (o.reply == Ok(CodeReply(m)) || o.reply == Err(MasterCodeConflict))
  {
    hide FinishRow, MasterCode.Valid, RowUpdateAllowed, Referenced, Present, RowOk;
    IdsOfReferenced(db, refs);
    FinishWrites(db, ctx, id, m);
    assert Aggregate(db, RowOf(m)) == m;
    hide Coherent, Aggregate;
    var o := FinishRow(db, ctx, id, Ok(m));
    if o.reply.Ok? {
      assert o.db.rows == db.rows[id := RowOf(m)];
      RowWritten(db, o.db, id, RowOf(m));
    }
  }

  /** A valid aggregate over stored Dimensions makes a row that satisfies the table's constraints. */
  lemma AggregateRowChecks(db: Db, m: MasterCode)
    requires DimensionsOk(db) && m.Valid() && m.dims == Referenced(db, Ids(m.dims))
    ensures RowChecks(RowOf(m))
  {
    ReferencedHasShape(db, Ids(m.dims));
    hide CodeShape, Referenced, DimensionsOk, Compose;
  }

  /** A new reference tuple always composes to a new code, as the guard demands. */
  lemma NewReferencesNewCode(db: Db, id: Id, refs: References)
    requires Coherent(db) && id in db.rows && Present(db, refs) && refs != db.rows[id].refs
    ensures Compose(Referenced(db, refs)) != db.rows[id].code
  {
    assert RowOk(db, id);
    if Compose(Referenced(db, refs)) == db.rows[id].code {
      CompositionIsInjective(db, refs, db.rows[id].refs);
    }
  }

  lemma ResolvedIsUsable(db: Db, refs: References, changes: SlotChanges)
    requires AllUsable(db, refs) && ChangesUsable(db, changes)
    ensures AllUsable(db, Resolve(refs, changes))
  {
    forall s: Slot ensures Usable(db, s, Resolve(refs, changes)[s]) {
      assert Usable(db, s, refs[s]);
      if changes[s].Use? { assert Usable(db, s, Some(changes[s].id)); }
    }
  }

  lemma ActiveRowIsUsable(db: Db, id: Id)
    requires Coherent(db) && id in db.rows && db.rows[id].deletedAt.None?
    ensures AllUsable(db, db.rows[id].refs)
  {
    assert RowOk(db, id);
    var refs := db.rows[id].refs;
    forall s: Slot ensures Usable(db, s, refs[s]) {
      assert Referenced(db, refs)[s] == Lookup(db, s, refs[s]);
    }
  }

  lemma AggregateMoves(m: MasterCode, dims: Dimensions8, at: Time)
    requires m.Valid() && m.deletedAt.None? && Ids(dims) != Ids(m.dims) && m.updatedAt <= at
    requires forall s: Slot :: dims[s].Some? ==> !dims[s].value.IsDeleted()
    ensures var next := m.(dims := dims, code := Compose(dims), version := m.version + 1, updatedAt := at);
            next.Valid() && m.UpdateReferences(dims, at) == Ok(next)
  {
  }

  /** The aggregate of a row after its references moved. */
  function MovedTo(db: Db, id: Id, refs: References, at: Time): MasterCode
    requires id in db.rows
  {
    var current := Aggregate(db, db.rows[id]);
    current.(dims := Referenced(db, refs), code := Compose(Referenced(db, refs)), version := current.version + 1,
             updatedAt := at)
  }

  /** Moving an active row to other active Dimensions is a domain transition the guard admits. */
  lemma MoveIsAdmitted(db: Db, id: Id, refs: References, at: Time)
    requires Coherent(db) && id in db.rows && db.rows[id].deletedAt.None?
    requires AllUsable(db, refs) && refs != db.rows[id].refs && db.rows[id].updatedAt <= at
    ensures var m := MovedTo(db, id, refs, at);
      && Aggregate(db, db.rows[id]).UpdateReferences(Referenced(db, refs), at) == Ok(m)
      && m.Valid() && m.id == id && Ids(m.dims) == refs && Present(db, refs) && m.code != db.rows[id].code
      && RowUpdateAllowed(Context(None, Some(ReferenceUpdate), at), db.rows[id], RowOf(m))
  {
    hide Coherent, AllUsable, Present, Compose, Referenced, Ids, MasterCode.UpdateReferences, MasterCode.Valid;
    RowIsOk(db, id);
    UsableIsPresent(db, refs);
    IdsOfReferenced(db, refs);
    IdsOfReferenced(db, db.rows[id].refs);
    NewReferencesNewCode(db, id, refs);
    AggregateMoves(Aggregate(db, db.rows[id]), Referenced(db, refs), at);
  }

  lemma ReferenceChange(db: Db, id: Id, refs: References, at: Time)
    requires Coherent(db) && id in db.rows && db.rows[id].deletedAt.None?
    requires AllUsable(db, refs) && refs != db.rows[id].refs && db.rows[id].updatedAt <= at
    ensures var o := FinishRow(db, Context(None, Some(ReferenceUpdate), at), id,
                               Aggregate(db, db.rows[id]).UpdateReferences(Referenced(db, refs), at));
            Coherent(o.db) && o.reply != Err(Corrupt) && o.reply != Err(Rejected)
  {
    MoveIsAdmitted(db, id, refs, at);
    var m := MovedTo(db, id, refs, at);
    assert m.dims == Referenced(db, refs);
    hide *;
    FinishKeeps(db, Context(None, Some(ReferenceUpdate), at), id, m, refs);
  }

  lemma UpdateReferencesKeeps(db: Db, id: Id, changes: SlotChanges, etag: EtagVector, clock: Time)
    requires Coherent(db)
    ensures var o := UpdateReferences(db, id, changes, etag, clock);
            Coherent(o.db) && o.reply != Err(Corrupt) && o.reply != Err(Rejected)
  {
    if id in db.rows && db.rows[id].deletedAt.None? {
      LoadSucceeds(db, id);
      ActiveRowIsUsable(db, id);
      var refs := Resolve(db.rows[id].refs, changes);
      if ChangesUsable(db, changes) && refs != db.rows[id].refs {
        ResolvedIsUsable(db, db.rows[id].refs, changes);
        ReferenceChange(db, id, refs, Later(clock, db.rows[id].updatedAt));
      }
    }
  }

  /** The aggregate of a row after its deletion or restoration. */
  function LifecycleOf(db: Db, id: Id, deletedAt: Option<Time>, at: Time): MasterCode
    requires id in db.rows
  {
    var current := Aggregate(db, db.rows[id]);
    current.(deletedAt := deletedAt, updatedAt := at, version := current.version + 1)
  }

  lemma DeletionIsAdmitted(db: Db, id: Id, at: Time)
    requires Coherent(db) && id in db.rows && db.rows[id].deletedAt.None? && db.rows[id].updatedAt <= at
    ensures var m := LifecycleOf(db, id, Some(at), at);
      && Aggregate(db, db.rows[id]).Delete(at) == Ok(m)
      && m.Valid() && m.id == id && Ids(m.dims) == db.rows[id].refs && Present(db, db.rows[id].refs)
      && RowUpdateAllowed(Context(None, Some(DeleteCode), at), db.rows[id], RowOf(m))
  {
    RowIsOk(db, id);
    IdsOfReferenced(db, db.rows[id].refs);
    hide Coherent, Compose, Referenced, Ids, Present;
  }

  lemma RestorationIsAdmitted(db: Db, id: Id, at: Time)
    requires Coherent(db) && id in db.rows && db.rows[id].deletedAt.Some? && db.rows[id].updatedAt <= at
    requires AllUsable(db, db.rows[id].refs)
    ensures var m := LifecycleOf(db, id, None, at);
      && Aggregate(db, db.rows[id]).Restore(at) == Ok(m)
      && m.Valid() && m.id == id && Ids(m.dims) == db.rows[id].refs && Present(db, db.rows[id].refs)
      && RowUpdateAllowed(Context(None, Some(RestoreCode), at), db.rows[id], RowOf(m))
  {
    hide Coherent, Compose, Referenced, Ids, Present, AllUsable, MasterCode.Valid, MasterCode.Restore;
    RowIsOk(db, id);
    IdsOfReferenced(db, db.rows[id].refs);
    UsableIsPresent(db, db.rows[id].refs);
    AggregateRestores(Aggregate(db, db.rows[id]), at);
  }

  lemma AggregateRestores(m: MasterCode, at: Time)
    requires m.Valid() && m.deletedAt.Some? && m.updatedAt <= at
    requires forall s: Slot :: m.dims[s].Some? ==> !m.dims[s].value.IsDeleted()
    ensures var next := m.(deletedAt := None, updatedAt := at, version := m.version + 1);
            next.Valid() && m.Restore(at) == Ok(next)
  {
    hide Compose;
  }

  lemma DeleteCodeKeeps(db: Db, id: Id, etag: EtagVector, clock: Time)
    requires Coherent(db)
    ensures var o := DeleteMasterCode(db, id, etag, clock);
            Coherent(o.db) && o.reply != Err(Corrupt) && o.reply != Err(Rejected)
  {
    hide Coherent, MasterCode.Valid, MasterCode.Delete, RowUpdateAllowed, Present, Ids, FinishRow, Load;
    if id in db.rows && db.rows[id].deletedAt.None? {
      var at := Later(clock, db.rows[id].updatedAt);
      LoadSucceeds(db, id);
      DeletionIsAdmitted(db, id, at);
      FinishKeeps(db, Context(None, Some(DeleteCode), at), id, LifecycleOf(db, id, Some(at), at), db.rows[id].refs);
    }
  }

  lemma RestoreCodeKeeps(db: Db, id: Id, etag: EtagVector, clock: Time)
    requires Coherent(db)
    ensures var o := RestoreMasterCode(db, id, etag, clock);
            Coherent(o.db) && o.reply != Err(Corrupt) && o.reply != Err(Rejected)
  {
    hide Coherent, MasterCode.Valid, MasterCode.Restore, RowUpdateAllowed, Present, Ids, FinishRow, Load, AllUsable;
    if id in db.rows && db.rows[id].deletedAt.Some? {
      LoadSucceeds(db, id);
      if AllUsable(db, db.rows[id].refs) {
        var at := Later(clock, db.rows[id].updatedAt);
        RestorationIsAdmitted(db, id, at);
        FinishKeeps(db, Context(None, Some(RestoreCode), at), id, LifecycleOf(db, id, None, at), db.rows[id].refs);
      }
    }
  }

  // --------------------------------------------------------------------- runs

  /**
   Every command keeps coherence, and what the domain methods produce on a coherent
   store is never refused by a trigger, a CHECK or a failed validation.
   */
  lemma ExecKeeps(db: Db, c: Command)
    requires Coherent(db)
    ensures Coherent(Exec(db, c).db)
    ensures Exec(db, c).reply != Err(Corrupt) && Exec(db, c).reply != Err(Rejected)
  {
    match c
    case DoCreateDimension(key, code, value, t) => CreateDimensionKeeps(db, key, code, value, t);
    case DoUpdateDimension(key, v, code, value, t) => UpdateDimensionKeeps(db, key, v, code, value, t);
    case DoDeleteDimension(key, v, t) => DeleteDimensionKeeps(db, key, v, t);
    case DoRestoreDimension(key, v, t) => RestoreDimensionKeeps(db, key, v, t);
    case DoCreateCode(id, refs, t) => CreateCodeKeeps(db, id, refs, t);
    case DoUpdateReferences(id, changes, etag, t) => UpdateReferencesKeeps(db, id, changes, etag, t);
    case DoDeleteCode(id, etag, t) => DeleteCodeKeeps(db, id, etag, t);
    case DoRestoreCode(id, etag, t) => RestoreCodeKeeps(db, id, etag, t);
  }

  /** Every store reached by any run of commands is coherent. */
  lemma {:induction false} RunsAreCoherent(run: seq<Command>)
    ensures Coherent(After(run))
  {
    if run != [] {
      RunsAreCoherent(run[..|run| - 1]);
      ExecKeeps(After(run[..|run| - 1]), run[|run| - 1]);
    }
  }

  /** Coherence spelled out for one row of a reached store. */
  lemma ReachedRow(run: seq<Command>, id: Id)
    requires id in After(run).rows
    ensures var db := After(run);
            Present(db, db.rows[id].refs)
            && db.rows[id].code == Compose(Referenced(db, db.rows[id].refs))
            && (db.rows[id].deletedAt.None? ==> AllUsable(db, db.rows[id].refs))
  {
    RunsAreCoherent(run);
    var db := After(run);
    assert RowOk(db, id);
    if db.rows[id].deletedAt.None? { ActiveRowIsUsable(db, id); }
  }

  /**
   What a MasterCode shows, read off the tables: segment by segment, in the order company, brand,
   model, category, year, memory, network, country, the code the referenced Dimension has now,
   or NNN for an empty slot; and nothing after the eighth.
   */
  lemma ReachedSegments(run: seq<Command>, id: Id, s: Slot)
    requires id in After(run).rows
    ensures var db := After(run);
      var ref := db.rows[id].refs[s];
      && (ref.Some? ==> Key(s, ref.value) in db.dims)
      && Segment(db.rows[id].code, s) == Some(if ref.None? then "NNN" else db.dims[Key(s, ref.value)].code)
      && Segment(db.rows[id].code, 8) == None
  {
    hide Exec;
    RunsAreCoherent(run);
    RowSegments(After(run), id, s);
  }

  lemma RowSegments(db: Db, id: Id, s: Slot)
    requires Coherent(db) && id in db.rows
    ensures var ref := db.rows[id].refs[s];
      && (ref.Some? ==> Key(s, ref.value) in db.dims)
      && Segment(db.rows[id].code, s) == Some(if ref.None? then "NNN" else db.dims[Key(s, ref.value)].code)
      && Segment(db.rows[id].code, 8) == None
  {
    RowIsOk(db, id);
    var refs := db.rows[id].refs;
    var dims := Referenced(db, refs);
    forall i: Slot ensures dims[i] == Lookup(db, i, refs[i]) && (dims[i].Some? ==> HyphenFree(dims[i].value.code)) {
      if dims[i].Some? { ValidCodeIsPlain(dims[i].value.code); }
    }
    hide Coherent, Segment, Compose, Referenced;
    ComposedSegments(dims, s);
    ComposedSegments(dims, 8);
  }
}
