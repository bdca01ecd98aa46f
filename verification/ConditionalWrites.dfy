/**
 Optimistic concurrency: a conditional command takes effect only on the state its caller
 saw, and a caller who saw another state is told so and changes nothing.
 */
module ConditionalWrites {
  import opened Wrappers
  import opened Dimensions
  import opened MasterCodes
  import opened Triggers
  import opened MasterData
  import opened Coherence
  import opened Recomposition
  import opened StoreRuns
  import opened StrongValidator

  /** The command names a stored version, or the validator the MasterCode has now. */
  predicate Matches(db: Db, c: Command) {
    match c
    case DoUpdateDimension(key, v, _, _, _) => key in db.dims && db.dims[key].version == v
    case DoDeleteDimension(key, v, _) => key in db.dims && db.dims[key].version == v
    case DoRestoreDimension(key, v, _) => key in db.dims && db.dims[key].version == v
    case DoUpdateReferences(id, _, etag, _) => id in db.rows && VectorOf(db, id) == etag
    case DoDeleteCode(id, etag, _) => id in db.rows && VectorOf(db, id) == etag
    case DoRestoreCode(id, etag, _) => id in db.rows && VectorOf(db, id) == etag
    case _ => true
  }

  predicate Conditional(c: Command) { !c.DoCreateDimension? && !c.DoCreateCode? }

  /** The command's input is well formed and names a row in the state the command is for. */
  predicate Addresses(db: Db, c: Command) {
    match c
    case DoUpdateDimension(key, v, code, value, _) =>
      key in db.dims && !db.dims[key].IsDeleted() && v >= 1 && (code.Some? || value.Some?)
      && (code.Some? ==> ParseCode(code.value).Ok?) && (value.Some? ==> ParseValue(key.slot, value.value).Some?)
    case DoDeleteDimension(key, _, _) => key in db.dims && !db.dims[key].IsDeleted()
    case DoRestoreDimension(key, _, _) => key in db.dims && db.dims[key].IsDeleted()
    case DoUpdateReferences(id, changes, _, _) =>
      id in db.rows && db.rows[id].deletedAt.None? && ChangesUsable(db, changes)
    case DoDeleteCode(id, _, _) => id in db.rows && db.rows[id].deletedAt.None?
    case DoRestoreCode(id, _, _) => id in db.rows && db.rows[id].deletedAt.Some?
    case _ => true
  }

  // ------------------------------------------------------------------ one command

  /** The errors that speak of the input or of the row's presence, deletion state or version. */
  predicate Misaddressed(e: StoreError) {
    e == NotFound || e == NotDeleted || e == PreconditionFailed || e == InvalidInput
  }

  predicate SaysMissing(r: Result<Reply, StoreError>) { r.Err? && Misaddressed(r.error) }

  /** Once the command has checked its row, no later step reports anything about it. */
  lemma ReportsNothingMissing(db: Db)
    ensures forall key, code, value, t :: key in db.dims ==> !SaysMissing(ApplyChange(db, key, code, value, t).reply)
    ensures forall key, ctx, d :: key in db.dims ==> !SaysMissing(FinishDimension(db, key, ctx, d).reply)
    ensures forall ctx, id, m :: id in db.rows ==> !SaysMissing(FinishRow(db, ctx, id, m).reply)
  {
    forall key, code, value, t | key in db.dims ensures !SaysMissing(ApplyChange(db, key, code, value, t).reply) {
      ChangeFindsItsRow(db, key, code, value, t);
    }
    hide DimensionUpdateAllowed, DimensionChecks, CodeTaken, ValueTaken, AllEntryChecks, InUse, RowUpdateAllowed,
      RowChecks, RowCollides, CodeEntryChecks, ApplyChange;
  }

  lemma ChangeFindsItsRow(db: Db, key: Key, code: Option<string>, value: Option<Value>, t: Time)
    requires key in db.dims
    ensures !SaysMissing(ApplyChange(db, key, code, value, t).reply)
  {
    hide DimensionUpdateAllowed, DimensionChecks, CodeTaken, ValueTaken, AllEntryChecks, InUse, RecomposeRow;
    var current := db.dims[key];
    var ids := if ChangesCode(current, code) then Ordering.Ascending(Referencing(db, key)) else [];
    var at := Later(t, LatestUpdate(db, ids, current.updatedAt));
    var ctx := Context(Some(UpdateDim), if code.Some? then Some(Recompose) else None, at);
    if current.Change(code, value, at).Ok? {
      var d := current.Change(code, value, at).value;
      if WriteDimension(db, ctx, key, d).Ok? {
        LoopFindsItsRows(WriteDimension(db, ctx, key, d).value, db, ctx, key.slot, d, ids);
      }
    }
  }

  lemma {:induction false} LoopFindsItsRows(
    db: Db, base: Db, ctx: Context, slot: Slot, d: Dimension, ids: seq<Id>)
    requires forall id :: id in ids ==> id in base.rows && id in db.rows
    ensures var r := RecomposeRows(db, base, ctx, slot, d, ids); r.Err? ==> !Misaddressed(r.error)
  {
    hide RowUpdateAllowed, RowChecks, RowCollides, CodeEntryChecks, MasterCode.Recompose;
    if ids != [] {
      var front, id := ids[..|ids| - 1], ids[|ids| - 1];
      assert front + [id] == ids && id in ids;
      LoopFindsItsRows(db, base, ctx, slot, d, front);
    }
  }

  lemma DimensionConditions(db: Db, c: Command)
    requires Coherent(db)
    requires c.DoUpdateDimension? || c.DoDeleteDimension? || c.DoRestoreDimension?
    ensures var o := Exec(db, c);
      && (o.db != db || o.reply.Ok? ==> Matches(db, c))
      && (Addresses(db, c) ==> (o.reply == Err(PreconditionFailed) <==> !Matches(db, c)))
      && (o.reply == Err(PreconditionFailed) ==> o.db == db)
  {
    hide Coherent, ParseCode, ParseValue, CodeTaken, ValueTaken, ChangesCode, ChangesValue, ApplyChange,
      FinishDimension, InUse, Dimension.Delete, Dimension.Restore;
    ReportsNothingMissing(db);
  }

  lemma CodeConditions(db: Db, c: Command)
    requires Coherent(db)
    requires c.DoUpdateReferences? || c.DoDeleteCode? || c.DoRestoreCode?
    ensures var o := Exec(db, c);
      && (o.db != db || o.reply.Ok? ==> Matches(db, c))
      && (Addresses(db, c) ==> (o.reply == Err(PreconditionFailed) <==> !Matches(db, c)))
      && (o.reply == Err(PreconditionFailed) ==> o.db == db)
  {
    hide Coherent, Load, AllUsable, ChangesUsable, FinishRow, MasterCode.UpdateReferences, MasterCode.Delete,
      MasterCode.Restore, Resolve, Referenced, MasterCode.Vector;
    ReportsNothingMissing(db);
    if c.id in db.rows {
      LoadSucceeds(db, c.id);
      if db.rows[c.id].deletedAt.None? { ActiveRowIsUsable(db, c.id); }
    }
  }

  /**
   Whatever changes the store, or is answered with success, named the state it changed. On a
   row in the right state, a caller is told of a failed precondition exactly when the state is
   another one than named, and then nothing changes.
   */
  lemma OnlyTheStateSeenIsChanged(db: Db, c: Command)
    requires Coherent(db)
    ensures var o := Exec(db, c);
      && (Conditional(c) && (o.db != db || o.reply.Ok?) ==> Matches(db, c))
      && (Conditional(c) && Addresses(db, c) ==> (o.reply == Err(PreconditionFailed) <==> !Matches(db, c)))
      && (Conditional(c) && o.reply == Err(PreconditionFailed) ==> o.db == db)
  {
    hide Exec, Matches, Addresses, Coherent;
    match c
    case DoCreateDimension(_, _, _, _) =>
    case DoCreateCode(_, _, _) =>
    case DoUpdateDimension(_, _, _, _, _) => DimensionConditions(db, c);
    case DoDeleteDimension(_, _, _) => DimensionConditions(db, c);
    case DoRestoreDimension(_, _, _) => DimensionConditions(db, c);
    case DoUpdateReferences(_, _, _, _) => CodeConditions(db, c);
    case DoDeleteCode(_, _, _) => CodeConditions(db, c);
    case DoRestoreCode(_, _, _) => CodeConditions(db, c);
  }

  /** A missing Dimension, or one in the other deletion state, is reported as such and nothing changes. */
  lemma MissingDimensionsAreReported(db: Db, c: Command)
    ensures var o := Exec(db, c);
      match c
      case DoUpdateDimension(key, v, code, value, _) =>
        (v >= 1 && (code.Some? || value.Some?) && (code.Some? ==> ParseCode(code.value).Ok?)
         && (value.Some? ==> ParseValue(key.slot, value.value).Some?))
        ==> (o == Outcome(db, Err(NotFound)) <==> key !in db.dims || db.dims[key].IsDeleted())
      case DoDeleteDimension(key, _, _) =>
        o == Outcome(db, Err(NotFound)) <==> key !in db.dims || db.dims[key].IsDeleted()
      case DoRestoreDimension(key, _, _) =>
        (o == Outcome(db, Err(NotFound)) <==> key !in db.dims)
        && (o == Outcome(db, Err(NotDeleted)) <==> key in db.dims && !db.dims[key].IsDeleted())
      case _ => true
  {
    ReportsNothingMissing(db);
    hide ParseCode, ParseValue, CodeTaken, ValueTaken, ChangesCode, ChangesValue, ApplyChange, FinishDimension, InUse,
      CreateDimension, CreateMasterCode, UpdateReferences, DeleteMasterCode, RestoreMasterCode, Dimension.Delete,
      Dimension.Restore;
  }

  /** The same for MasterCodes. */
  lemma MissingCodesAreReported(db: Db, c: Command)
    requires Coherent(db)
    ensures var o := Exec(db, c);
      match c
      case DoUpdateReferences(id, _, _, _) =>
        o == Outcome(db, Err(NotFound)) <==> id !in db.rows || db.rows[id].deletedAt.Some?
      case DoDeleteCode(id, _, _) =>
        o == Outcome(db, Err(NotFound)) <==> id !in db.rows || db.rows[id].deletedAt.Some?
      case DoRestoreCode(id, _, _) =>
        (o == Outcome(db, Err(NotFound)) <==> id !in db.rows)
        && (o == Outcome(db, Err(NotDeleted)) <==> id in db.rows && db.rows[id].deletedAt.None?)
      case _ => true
  {
    hide Coherent, FinishRow, Load, AllUsable, ChangesUsable, Referenced, MasterCode.Vector, Resolve, CreateDimension,
      UpdateDimension, DeleteDimension, RestoreDimension, CreateMasterCode, MasterCode.UpdateReferences,
      MasterCode.Delete, MasterCode.Restore;
    ReportsNothingMissing(db);
    if (c.DoUpdateReferences? || c.DoDeleteCode? || c.DoRestoreCode?) && c.id in db.rows { LoadSucceeds(db, c.id); }
  }

  /** A patch that uses a missing or deleted Dimension is refused, whatever validator it brings. */
  lemma UnusableReferencesAreRefused(db: Db, id: Id, changes: SlotChanges, etag: EtagVector, clock: Time)
    requires Coherent(db) && id in db.rows && db.rows[id].deletedAt.None?
    ensures UpdateReferences(db, id, changes, etag, clock) == Outcome(db, Err(InvalidReference)) <==> exists s: Slot ::
      changes[s].Use? && (Key(s, changes[s].id) !in db.dims || db.dims[Key(s, changes[s].id)].deletedAt.Some?)
  {
    LoadSucceeds(db, id);
    ActiveRowIsUsable(db, id);
    hide Coherent, Load, AllUsable, FinishRow, MasterCode.UpdateReferences, Resolve, Referenced, MasterCode.Vector;
    FinishNamesNoReference(db, id);
    if !ChangesUsable(db, changes) {
      var s: Slot :| !(changes[s].Use? ==> Usable(db, s, Some(changes[s].id)));
      assert changes[s].Use? && (Key(s, changes[s].id) !in db.dims || db.dims[Key(s, changes[s].id)].deletedAt.Some?);
    } else {
      forall s: Slot | changes[s].Use?
        ensures Key(s, changes[s].id) in db.dims && db.dims[Key(s, changes[s].id)].deletedAt.None?
      {
        assert Usable(db, s, Some(changes[s].id));
      }
    }
  }

  lemma FinishNamesNoReference(db: Db, id: Id)
    requires id in db.rows
    ensures forall ctx, m :: FinishRow(db, ctx, id, m).reply != Err(InvalidReference)
  {
    hide RowUpdateAllowed, RowChecks, RowCollides, CodeEntryChecks;
  }

  /** A patch that changes no reference is answered with the MasterCode as it is. */
  lemma EmptyPatchIsAnswered(db: Db, id: Id, changes: SlotChanges, clock: Time)
    requires Coherent(db) && id in db.rows && db.rows[id].deletedAt.None? && ChangesUsable(db, changes)
    requires forall s: Slot :: (changes[s].Clear? ==> db.rows[id].refs[s].None?)
                               && (changes[s].Use? ==> db.rows[id].refs[s] == Some(changes[s].id))
    ensures UpdateReferences(db, id, changes, VectorOf(db, id), clock)
         == Outcome(db, Ok(CodeReply(Aggregate(db, db.rows[id]))))
  {
    LoadSucceeds(db, id);
    ActiveRowIsUsable(db, id);
    assert Resolve(db.rows[id].refs, changes) == db.rows[id].refs;
    hide Coherent, Load, AllUsable, ChangesUsable, FinishRow, MasterCode.UpdateReferences, Resolve, Referenced;
  }

  /** An update that names no version, nothing to change, or something malformed is refused before anything is read. */
  lemma MalformedUpdateIsRefused(
    db: Db, key: Key, v: int, code: Option<string>, value: Option<Value>, clock: Time)
    ensures UpdateDimension(db, key, v, code, value, clock) == Outcome(db, Err(InvalidInput))
      <==> v < 1 || (code.None? && value.None?) || (code.Some? && ParseCode(code.value).Err?)
           || (value.Some? && ParseValue(key.slot, value.value).None?)
  {
    ReportsNoInput(db, key);
    hide ParseCode, ParseValue, CodeTaken, ValueTaken, ChangesCode, ChangesValue, ApplyChange;
  }

  lemma ReportsNoInput(db: Db, key: Key)
    ensures forall code, value, t :: key in db.dims ==> ApplyChange(db, key, code, value, t).reply != Err(InvalidInput)
  {
    forall code, value, t | key in db.dims ensures ApplyChange(db, key, code, value, t).reply != Err(InvalidInput) {
      ChangeFindsItsRow(db, key, code, value, t);
    }
  }

  /** Each command is the operation of its name, with its own inputs. */
  lemma CommandsAreOperations(db: Db, c: Command)
    ensures Exec(db, c) == match c
      case DoCreateDimension(key, code, value, t) => CreateDimension(db, key, code, value, t)
      case DoUpdateDimension(key, v, code, value, t) => UpdateDimension(db, key, v, code, value, t)
      case DoDeleteDimension(key, v, t) => DeleteDimension(db, key, v, t)
      case DoRestoreDimension(key, v, t) => RestoreDimension(db, key, v, t)
      case DoCreateCode(id, refs, t) => CreateMasterCode(db, id, refs, t)
      case DoUpdateReferences(id, changes, etag, t) => UpdateReferences(db, id, changes, etag, t)
      case DoDeleteCode(id, etag, t) => DeleteMasterCode(db, id, etag, t)
      case DoRestoreCode(id, etag, t) => RestoreMasterCode(db, id, etag, t)
  {
  }

  // ------------------------------------------------------------------ whole runs

  predicate TakesEffect(run: seq<Command>, j: nat)
    requires j < |run|
  {
    Exec(After(run[..j]), run[j]).db != After(run[..j])
  }

  predicate ChangesCodeRow(c: Command, id: Id, etag: EtagVector) {
    (c.DoUpdateReferences? || c.DoDeleteCode? || c.DoRestoreCode?) && c.id == id && c.etag == etag
  }

  predicate ChangesDimensionRow(c: Command, key: Key, version: int) {
    (c.DoUpdateDimension? || c.DoDeleteDimension? || c.DoRestoreDimension?) && c.key == key && c.expected == version
  }

  /**
   A command on a MasterCode that takes effect at `j` with the validator read at `i`: at every
   point between, the row and every Dimension it refers to were what the caller had read.
   */
  lemma NoLostUpdateOfCodes(run: seq<Command>, i: nat, k: nat, j: nat, id: Id)
    requires i <= k <= j < |run| && id in After(run[..i]).rows
    requires ChangesCodeRow(run[j], id, VectorOf(After(run[..i]), id)) && TakesEffect(run, j)
    ensures id in After(run[..k]).rows && After(run[..k]).rows[id] == After(run[..i]).rows[id]
    ensures Aggregate(After(run[..k]), After(run[..k]).rows[id])
         == Aggregate(After(run[..i]), After(run[..i]).rows[id])
  {
    hide Exec, Coherent, After;
    RunsAreCoherent(run[..j]);
    OnlyTheStateSeenIsChanged(After(run[..j]), run[j]);
    EqualValidatorsMeanUnchanged(run, i, k, j, id);
  }

  /** The same for a Dimension and the version read. */
  lemma NoLostUpdateOfDimensions(run: seq<Command>, i: nat, k: nat, j: nat, key: Key)
    requires i <= k <= j < |run| && key in After(run[..i]).dims
    requires ChangesDimensionRow(run[j], key, After(run[..i]).dims[key].version) && TakesEffect(run, j)
    ensures key in After(run[..k]).dims && After(run[..k]).dims[key] == After(run[..i]).dims[key]
  {
    hide Exec, Coherent, After, NewEntriesAreNewer;
    RunsAreCoherent(run[..j]);
    OnlyTheStateSeenIsChanged(After(run[..j]), run[j]);
    RunExtends(run, i, k);
    RunExtends(run, k, j);
  }
}
