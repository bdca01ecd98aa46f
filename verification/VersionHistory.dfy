/** Versions are taken one at a time, so the log of a Dimension accounts for every number up to the current one. */
module VersionHistory {
  import opened Wrappers
  import opened Dimensions
  import opened MasterCodes
  import opened Triggers
  import opened MasterData
  import opened Coherence
  import opened Recomposition
  import opened AuditTrail
  import opened StoreRuns
  import opened StoreEffects
  import opened StrongValidator

  /** A Dimension starts at version 1 and moves on by at most one. */
  predicate OneAtATime(a: Db, b: Db) {
    forall k :: k in b.dims ==> b.dims[k].version <= if k in a.dims then a.dims[k].version + 1 else 1
  }

  lemma SameDimensions(a: Db, b: Db)
    requires b.dims == a.dims
    ensures OneAtATime(a, b)
  {
  }

  lemma FinishDimensionCounts(db: Db, key: Key, ctx: Context, d: Result<Dimension, DimensionError>)
    requires key in db.dims
    ensures OneAtATime(db, FinishDimension(db, key, ctx, d).db)
  {
    hide AllEntryChecks, UpdateEntries, DimensionChecks, CodeTaken, ValueTaken, InUse;
  }

  lemma ApplyChangeCounts(db: Db, key: Key, code: Option<string>, value: Option<Value>, clock: Time)
    requires Coherent(db) && MayUpdate(db, key, code, value)
    ensures OneAtATime(db, ApplyChange(db, key, code, value, clock).db)
  {
    hide Coherent, ApplyChange, MayUpdate, RowsFollow;
    UpdateTakesEffect(db, key, code, value, clock);
  }

  lemma UpdateDimensionCounts(
    db: Db, key: Key, expected: int, code: Option<string>, value: Option<Value>, clock: Time)
    requires Coherent(db)
    ensures OneAtATime(db, UpdateDimension(db, key, expected, code, value, clock).db)
  {
    hide Coherent, ApplyChange, CodeTaken, ValueTaken, OneAtATime;
    SameDimensions(db, db);
    if key in db.dims && !db.dims[key].IsDeleted()
       && (code.Some? ==> ParseCode(code.value).Ok?)
       && (value.Some? ==> ParseValue(key.slot, value.value).Some?)
    {
      var c := if code.None? then None else Some(ParseCode(code.value).value);
      var v := if value.None? then None else ParseValue(key.slot, value.value);
      if MayUpdate(db, key, c, v) { ApplyChangeCounts(db, key, c, v, clock); }
    }
  }

  lemma CreateDimensionCounts(db: Db, key: Key, code: string, value: Value, clock: Time)
    ensures OneAtATime(db, CreateDimension(db, key, code, value, clock).db)
  {
    hide ParseCode, ParseValue, CodeTaken, ValueTaken, AllEntryChecks, DimensionChecks;
  }

  lemma LifecycleCounts(db: Db, c: Command)
    requires c.DoDeleteDimension? || c.DoRestoreDimension?
    ensures OneAtATime(db, Exec(db, c).db)
  {
    hide OneAtATime, FinishDimension, InUse;
    SameDimensions(db, db);
    if c.key in db.dims {
      var at := Later(c.clock, db.dims[c.key].updatedAt);
      FinishDimensionCounts(db, c.key, Context(Some(DeleteDim), None, at), db.dims[c.key].Delete(at));
      FinishDimensionCounts(db, c.key, Context(Some(RestoreDim), None, at), db.dims[c.key].Restore(at));
    }
  }

  /** Commands on MasterCodes leave every Dimension alone. */
  lemma CodeCommandsKeepDimensions(db: Db, c: Command)
    requires c.DoCreateCode? || c.DoUpdateReferences? || c.DoDeleteCode? || c.DoRestoreCode?
    ensures Exec(db, c).db.dims == db.dims
  {
    hide RowChecks, RowCollides, CodeEntryChecks, RowUpdateAllowed, RowInsertAllowed, AllUsable, ChangesUsable, Load,
      MasterCode.Create, MasterCode.UpdateReferences, MasterCode.Delete, MasterCode.Restore, Referenced, Resolve;
  }

  lemma CommandCounts(db: Db, c: Command)
    requires Coherent(db)
    ensures OneAtATime(db, Exec(db, c).db)
  {
    hide OneAtATime, Coherent, CreateDimension, UpdateDimension;
    match c
    case DoCreateDimension(key, code, value, t) => CreateDimensionCounts(db, key, code, value, t);
    case DoUpdateDimension(key, v, code, value, t) => UpdateDimensionCounts(db, key, v, code, value, t);
    case DoDeleteDimension(_, _, _) => LifecycleCounts(db, c);
    case DoRestoreDimension(_, _, _) => LifecycleCounts(db, c);
    case _ =>
      CodeCommandsKeepDimensions(db, c);
      SameDimensions(db, Exec(db, c).db);
  }

  /** Every number up to the current version is one the Dimension had at some point of the run. */
  lemma {:induction false} EveryVersionWasHeld(run: seq<Command>, key: Key, w: int) returns (i: nat)
    requires key in After(run).dims && 1 <= w <= After(run).dims[key].version
    ensures i <= |run| && key in After(run[..i]).dims && After(run[..i]).dims[key].version == w
    decreases run
  {
    hide Exec, Coherent;
    assert run[..|run|] == run;
    i := |run|;
    if w < After(run).dims[key].version {
      NothingAtFirst(run, key);
      var front := run[..|run| - 1];
      RunsAreCoherent(front);
      CommandCounts(After(front), run[|run| - 1]);
      i := EveryVersionWasHeld(front, key, w);
      assert front[..i] == run[..i];
    }
  }

  lemma NothingAtFirst(run: seq<Command>, key: Key)
    requires key in After(run).dims
    ensures run != []
  {
  }

  /**
   The final log gives back a Dimension at each of its versions 1..v: the state it had while it
   held that version. Every version is logged, no field twice in one, and each entry's old
   value is the one of the version before.
   */
  lemma DimensionLogIsComplete(run: seq<Command>, key: Key, w: int) returns (i: nat)
    requires key in After(run).dims && 1 <= w <= After(run).dims[key].version
    ensures i <= |run| && key in After(run[..i]).dims && After(run[..i]).dims[key].version == w
    ensures Replay(After(run).dimLog, key, w) == StateOf(After(run[..i]).dims[key])
    ensures Logs(After(run).dimLog, key, w) && FieldsOnce(After(run).dimLog) && AllEntryChecks(After(run).dimLog)
    ensures StampedAt(After(run).dimLog, key, After(run[..i]).dims[key])
    ensures forall n :: 0 <= n < |After(run).dimLog| ==> Told(After(run).dimLog, n)
  {
    hide Exec, Replay, StateOf, Logs, FieldsOnce, Told, After, StampedAt, AllEntryChecks;
    i := EveryVersionWasHeld(run, key, w);
    DimensionHistoryIsKept(run, i, key);
    RunsAreLogged(run);
  }
}
