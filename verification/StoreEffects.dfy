/** What a successful command changes, what it leaves alone, and what a second one undoes. */
module StoreEffects {
  import opened Wrappers
  import opened Dimensions
  import opened MasterCodes
  import opened Triggers
  import opened Ordering
  import opened MasterData
  import opened Coherence
  import opened Recomposition
  import opened StoreRuns
  import StringValues
  import Text

  // ------------------------------------------------------------ updating a Dimension

  /** A row after its Dimension took a new code: a new code of its own, the next version, the same references. */
  predicate RowFollows(a: Row, b: Row, at: Time) {
    && b.id == a.id && b.refs == a.refs && b.createdAt == a.createdAt && b.deletedAt == a.deletedAt
    && b.code != a.code && b.version == a.version + 1 && b.updatedAt == at && at >= a.updatedAt
  }

  /** Every referencing row follows a code change, deleted or not; every other row stays. */
  predicate RowsFollow(a: Db, b: Db, key: Key, recoded: bool, at: Time) {
    && b.rows.Keys == a.rows.Keys
    && forall id :: id in a.rows ==>
         if recoded && Refers(a.rows[id], key) then RowFollows(a.rows[id], b.rows[id], at) else b.rows[id] == a.rows[id]
  }

  /** The mutation time: the clock, or the latest update time among the touched rows if that is later. */
  predicate MutationTime(db: Db, key: Key, recoded: bool, clock: Time, at: Time)
    requires key in db.dims
  {
    && at >= clock && at >= db.dims[key].updatedAt
    && (recoded ==> forall id :: id in db.rows && Refers(db.rows[id], key) ==> at >= db.rows[id].updatedAt)
    && (at == clock || at == db.dims[key].updatedAt
        || (recoded && exists id :: id in db.rows && Refers(db.rows[id], key) && at == db.rows[id].updatedAt))
  }

  lemma {:induction false} LatestIsTaken(db: Db, ids: seq<Id>, floor: Time)
    requires forall id :: id in ids ==> id in db.rows
    ensures var t := LatestUpdate(db, ids, floor); t == floor || exists id :: id in ids && t == db.rows[id].updatedAt
  {
    if ids != [] {
      var front, last := ids[..|ids| - 1], ids[|ids| - 1];
      LatestIsTaken(db, front, floor);
      assert last in ids && forall id :: id in front ==> id in ids;
    }
  }

  predicate OnlyDimension(a: Db, b: Db, key: Key) {
    && b.dims.Keys == a.dims.Keys && forall k :: k in a.dims && k != key ==> b.dims[k] == a.dims[k]
  }

  /** An admissible update succeeds and changes the Dimension and the rows that show it, nothing else. */
  lemma UpdateTakesEffect(db: Db, key: Key, code: Option<string>, value: Option<Value>, clock: Time)
    requires Coherent(db) && MayUpdate(db, key, code, value)
    ensures var o := ApplyChange(db, key, code, value, clock);
      && o.reply.Ok? && OnlyDimension(db, o.db, key)
      && Updated(db.dims[key], o.db.dims[key], code, value, clock)
      && RowsFollow(db, o.db, key, ChangesCode(db.dims[key], code), o.db.dims[key].updatedAt)
      && MutationTime(db, key, ChangesCode(db.dims[key], code), clock, o.db.dims[key].updatedAt)
      && o.reply == Ok(DimensionReply(o.db.dims[key]))
  {
    hide Coherent, Updated, WriteDimension, Recoded, UpdateEntries, RowsFollow, Dimension.Change, RecomposeRows,
      Refers, LatestUpdate, CodeTaken, ValueTaken, ValidCode, ValidValue, Midway, Dimension.IsDeleted;
    var current := db.dims[key];
    var recoded := ChangesCode(current, code);
    var ids := if recoded then Ascending(Referencing(db, key)) else [];
    var at := Later(clock, LatestUpdate(db, ids, current.updatedAt));
    var ctx := Context(Some(UpdateDim), if code.Some? then Some(Recompose) else None, at);
    UpdateIsAdmitted(db, key, code, value, at, clock);
    var d := current.Change(code, value, at).value;
    var mid := WriteDimension(db, ctx, key, d).value;
    LatestIsTaken(db, ids, current.updatedAt);
    if recoded {
      assert forall id :: id in ids <==> id in db.rows && Refers(db.rows[id], key);
      EveryRow(db, mid, key, d, ctx, ids);
      MidwayRowsFollow(db, RecomposeRows(mid, db, ctx, key.slot, d, ids).value, key, d, at, ids);
    } else {
      NothingToRecompose(mid, db, ctx, key.slot, d);
      RowsStay(db, mid, key, at);
    }
  }

  lemma RowsStay(a: Db, b: Db, key: Key, at: Time)
    requires b.rows == a.rows
    ensures RowsFollow(a, b, key, false, at)
  {
  }

  lemma MidwayRowsFollow(base: Db, next: Db, key: Key, d: Dimension, at: Time, ids: seq<Id>)
    requires Coherent(base) && Recoded(base, key, d) && Midway(base, next, key, d, at, ids)
    requires forall id :: id in ids <==> id in base.rows && Refers(base.rows[id], key)
    requires forall id :: id in ids ==> base.rows[id].updatedAt <= at
    ensures RowsFollow(base, next, key, true, at)
  {
    forall id | id in base.rows && Refers(base.rows[id], key) ensures RowFollows(base.rows[id], next.rows[id], at) {
      NewCodeIsNew(base, key, d, id, id);
    }
  }

  /** Changing a code and changing it back gives every row the code it had; only versions and times moved. */
  lemma CodeChangeIsUndone(db: Db, key: Key, code: string, clock: Time, later: Time)
    requires Coherent(db) && MayUpdate(db, key, Some(code), None)
    ensures var mid := ApplyChange(db, key, Some(code), None, clock).db;
      && MayUpdate(mid, key, Some(db.dims[key].code), None)
      && var end := ApplyChange(mid, key, Some(db.dims[key].code), None, later);
         end.reply.Ok? && end.db.rows.Keys == db.rows.Keys
         && forall id :: id in db.rows ==>
              end.db.rows[id].code == db.rows[id].code && end.db.rows[id].refs == db.rows[id].refs
              && end.db.rows[id].version == db.rows[id].version + if Refers(db.rows[id], key) then 2 else 0
  {
    hide Coherent, ApplyChange, Updated, RowsFollow, RowFollows;
    var own := db.dims[key].code;
    UpdateTakesEffect(db, key, Some(code), None, clock);
    ApplyChangeKeeps(db, key, Some(code), None, clock);
    var mid := ApplyChange(db, key, Some(code), None, clock).db;
    MayChangeBack(db, mid, key, code, clock);
    UpdateTakesEffect(mid, key, Some(own), None, later);
    ApplyChangeKeeps(mid, key, Some(own), None, later);
    var end := ApplyChange(mid, key, Some(own), None, later).db;
    SameCodesSameRows(db, mid, end, key, code, clock, later);
  }

  lemma MayChangeBack(db: Db, mid: Db, key: Key, code: string, clock: Time)
    requires Coherent(db) && Coherent(mid) && MayUpdate(db, key, Some(code), None) && OnlyDimension(db, mid, key)
    requires Updated(db.dims[key], mid.dims[key], Some(code), None, clock)
    ensures MayUpdate(mid, key, Some(db.dims[key].code), None)
  {
    StoredDimensionChecks(db, key);
    OwnCodeIsFree(db, key);
  }

  lemma SameCodesSameRows(db: Db, mid: Db, end: Db, key: Key, code: string, clock: Time, later: Time)
    requires Coherent(db) && Coherent(end) && key in db.dims && OnlyDimension(db, mid, key)
    requires OnlyDimension(mid, end, key)
    requires code != db.dims[key].code
    requires Updated(db.dims[key], mid.dims[key], Some(code), None, clock)
    requires Updated(mid.dims[key], end.dims[key], Some(db.dims[key].code), None, later)
    requires RowsFollow(db, mid, key, true, mid.dims[key].updatedAt)
    requires RowsFollow(mid, end, key, true, end.dims[key].updatedAt)
    ensures end.rows.Keys == db.rows.Keys
    ensures forall id :: id in db.rows ==>
      end.rows[id].code == db.rows[id].code && end.rows[id].refs == db.rows[id].refs
      && end.rows[id].version == db.rows[id].version + if Refers(db.rows[id], key) then 2 else 0
  {
    assert end.dims.Keys == db.dims.Keys && forall k :: k in db.dims ==> end.dims[k].code == db.dims[k].code;
    hide Coherent, Updated, RowOk, Compose;
    forall id | id in db.rows
      ensures end.rows[id].code == db.rows[id].code && end.rows[id].refs == db.rows[id].refs
        && end.rows[id].version == db.rows[id].version + if Refers(db.rows[id], key) then 2 else 0
    {
      FollowedTwice(db, mid, end, key, mid.dims[key].updatedAt, end.dims[key].updatedAt, id);
      RowIsOk(db, id);
      RowIsOk(end, id);
      ComposesAlike(db, end, db.rows[id].refs);
      RowComposes(db, id);
      RowComposes(end, id);
    }
  }

  lemma FollowedTwice(db: Db, mid: Db, end: Db, key: Key, at: Time, again: Time, id: Id)
    requires RowsFollow(db, mid, key, true, at) && RowsFollow(mid, end, key, true, again) && id in db.rows
    ensures id in end.rows && end.rows[id].refs == db.rows[id].refs
    ensures end.rows[id].version == db.rows[id].version + if Refers(db.rows[id], key) then 2 else 0
  {
  }

  lemma RowComposes(db: Db, id: Id)
    requires id in db.rows && RowOk(db, id)
    ensures db.rows[id].code == Compose(Referenced(db, db.rows[id].refs))
  {
  }

  /** Compositions read only the codes of the Dimensions referred to. */
  lemma ComposesAlike(a: Db, b: Db, refs: References)
    requires b.dims.Keys == a.dims.Keys && forall k :: k in a.dims ==> b.dims[k].code == a.dims[k].code
    ensures Compose(Referenced(b, refs)) == Compose(Referenced(a, refs))
  {
    forall s: Slot ensures Part(Referenced(b, refs)[s]) == Part(Referenced(a, refs)[s]) {
      assert Referenced(b, refs)[s] == Lookup(b, s, refs[s]);
      assert Referenced(a, refs)[s] == Lookup(a, s, refs[s]);
    }
    ComposeReadsParts(Referenced(b, refs), Referenced(a, refs));
  }

  // ------------------------------------------------------------ moving references

  /** The row at its new references, at time `at`. */
  predicate Moved(db: Db, a: Row, b: Row, refs: References, at: Time) {
    && b == Row(a.id, refs, b.code, a.version + 1, a.createdAt, at, a.deletedAt)
    && b.code == Compose(Referenced(db, refs)) && b.code != a.code
  }

  /** The references after a patch: kept, cleared or replaced, slot by slot. */
  predicate Patched(a: References, changes: SlotChanges, b: References) {
    forall s: Slot ::
      && (changes[s].Keep? ==> b[s] == a[s])
      && (changes[s].Clear? ==> b[s] == None)
      && (changes[s].Use? ==> b[s] == Some(changes[s].id))
  }

  /** Another row, deleted or not, already has these references. */
  predicate ReferencesTaken(db: Db, id: Id, refs: References) {
    exists i :: i in db.rows && i != id && db.rows[i].refs == refs
  }

  /**
   Moving an active row to other active Dimensions succeeds unless another row holds
   exactly these references; codes alone never stand in the way.
   */
  lemma ReferencesTakeEffect(db: Db, id: Id, changes: SlotChanges, clock: Time)
    requires Coherent(db) && id in db.rows && db.rows[id].deletedAt.None? && ChangesUsable(db, changes)
    requires Resolve(db.rows[id].refs, changes) != db.rows[id].refs
    ensures var refs := Resolve(db.rows[id].refs, changes);
      var o := UpdateReferences(db, id, changes, Aggregate(db, db.rows[id]).Vector(), clock);
      && Patched(db.rows[id].refs, changes, refs)
      && (o.reply.Ok? <==> !ReferencesTaken(db, id, refs))
      && (o.reply.Err? ==> o == Outcome(db, Err(MasterCodeConflict)))
      && (o.reply.Ok? ==> (OnlyRow(db, o.db, id)
                           && Moved(db, db.rows[id], o.db.rows[id], refs, Later(clock, db.rows[id].updatedAt))
                           && Shows(o, id)))
  {
    ResolvesToPatch(db.rows[id].refs, changes);
    hide Coherent, FinishRow, AllUsable, ChangesUsable, ReferencesTaken, Resolve, Compose, Load, OnlyRow, Patched,
      Moved, Referenced, MasterCode.UpdateReferences, MasterCode.Vector, Shows;
    LoadSucceeds(db, id);
    ActiveRowIsUsable(db, id);
    var refs := Resolve(db.rows[id].refs, changes);
    ResolvedIsUsable(db, db.rows[id].refs, changes);
    ReferencesMoved(db, id, refs, Later(clock, db.rows[id].updatedAt));
  }

  lemma ResolvesToPatch(refs: References, changes: SlotChanges)
    ensures Patched(refs, changes, Resolve(refs, changes))
  {
  }

  lemma ReferencesMoved(db: Db, id: Id, refs: References, at: Time)
    requires Coherent(db) && id in db.rows && db.rows[id].deletedAt.None?
    requires AllUsable(db, refs) && refs != db.rows[id].refs && db.rows[id].updatedAt <= at
    ensures var o := FinishRow(db, Context(None, Some(ReferenceUpdate), at), id,
                               Aggregate(db, db.rows[id]).UpdateReferences(Referenced(db, refs), at));
      && (o.reply.Ok? <==> !ReferencesTaken(db, id, refs))
      && (o.reply.Err? ==> o == Outcome(db, Err(MasterCodeConflict)))
      && (o.reply.Ok? ==> OnlyRow(db, o.db, id) && Moved(db, db.rows[id], o.db.rows[id], refs, at) && Shows(o, id))
  {
    MoveIsAdmitted(db, id, refs, at);
    var m := MovedTo(db, id, refs, at);
    assert m.dims == Referenced(db, refs);
    CollidesOnlyByReferences(db, id, RowOf(m));
    RowIsOk(db, id);
    MovedRow(db, id, refs, at);
    ReplyShows(db, m);
    hide Coherent, FinishRow, AllUsable, Moved, RowCollides, ReferencesTaken, MovedTo, OnlyRow, MasterCode.Valid,
      Present, MasterCode.UpdateReferences, RowUpdateAllowed, Referenced, Compose;
    FinishWrites(db, Context(None, Some(ReferenceUpdate), at), id, m);
    if !RowCollides(db, id, RowOf(m)) {
      SameTables(db, FinishRow(db, Context(None, Some(ReferenceUpdate), at), id, Ok(m)).db, id);
    }
  }

  lemma MovedRow(db: Db, id: Id, refs: References, at: Time)
    requires id in db.rows && db.rows[id].updatedAt <= at && Ids(Referenced(db, refs)) == refs
    requires MovedTo(db, id, refs, at).code != db.rows[id].code
    ensures Moved(db, db.rows[id], RowOf(MovedTo(db, id, refs, at)), refs, at)
  {
  }

  lemma SameTables(a: Db, b: Db, id: Id)
    requires OnlyRow(a, b, id)
    ensures b.dims == a.dims
  {
  }

  /** The reply shows the row as it is stored now, with the Dimensions stored now. */
  predicate Shows(o: Outcome, id: Id) {
    id in o.db.rows && o.reply == Ok(CodeReply(Aggregate(o.db, o.db.rows[id])))
  }

  /** An aggregate over stored Dimensions is what its row shows, in any store with these Dimensions. */
  lemma ReplyShows(db: Db, m: MasterCode)
    requires m.dims == Referenced(db, Ids(m.dims))
    ensures forall b: Db :: b.dims == db.dims ==> Aggregate(b, RowOf(m)) == m
  {
    forall b: Db | b.dims == db.dims ensures Aggregate(b, RowOf(m)) == m {
      SameReferenced(db, b, Ids(m.dims));
    }
  }

  lemma SameReferenced(a: Db, b: Db, refs: References)
    requires b.dims == a.dims
    ensures Referenced(b, refs) == Referenced(a, refs)
  {
  }

  /** By injectivity a code collision is a collision of references. */
  lemma CollidesOnlyByReferences(db: Db, id: Id, r: Row)
    requires Coherent(db) && Present(db, r.refs) && r.code == Compose(Referenced(db, r.refs))
    ensures RowCollides(db, id, r) <==> ReferencesTaken(db, id, r.refs)
  {
    forall i | i in db.rows && i != id && db.rows[i].code == r.code ensures db.rows[i].refs == r.refs {
      RowIsOk(db, i);
      CompositionIsInjective(db, db.rows[i].refs, r.refs);
    }
  }

  // ------------------------------------------------------------ deletion and restoration

  predicate Lifecycle(a: Row, b: Row, deleted: bool, at: Time) {
    b == a.(version := a.version + 1, updatedAt := at, deletedAt := if deleted then Some(at) else None)
  }

  /** An active row is deleted and nothing else changes. */
  lemma DeletionTakesEffect(db: Db, id: Id, clock: Time)
    requires Coherent(db) && id in db.rows && db.rows[id].deletedAt.None?
    ensures var o := DeleteMasterCode(db, id, Aggregate(db, db.rows[id]).Vector(), clock);
      o.reply.Ok? && OnlyRow(db, o.db, id) && Shows(o, id)
      && Lifecycle(db.rows[id], o.db.rows[id], true, Later(clock, db.rows[id].updatedAt))
  {
    hide Coherent, MasterCode.Valid, MasterCode.Delete, RowUpdateAllowed, Present, Ids, FinishRow, Load, RowCollides,
      Referenced, OnlyRow;
    var at := Later(clock, db.rows[id].updatedAt);
    var m := LifecycleOf(db, id, Some(at), at);
    LoadSucceeds(db, id);
    DeletionIsAdmitted(db, id, at);
    OwnCodeNeverCollides(db, id, RowOf(m));
    ReplyShows(db, m);
    FinishWrites(db, Context(None, Some(DeleteCode), at), id, m);
    SameTables(db, FinishRow(db, Context(None, Some(DeleteCode), at), id, Ok(m)).db, id);
  }

  lemma OwnCodeNeverCollides(db: Db, id: Id, r: Row)
    requires Coherent(db) && id in db.rows && r.refs == db.rows[id].refs && r.code == db.rows[id].code
    ensures !RowCollides(db, id, r)
  {
    RowIsOk(db, id);
    CollidesOnlyByReferences(db, id, r);
    assert ReferencesUnique(db);
  }

  /** A deleted row is restored exactly when all its Dimensions are active. */
  lemma RestorationTakesEffect(db: Db, id: Id, clock: Time)
    requires Coherent(db) && id in db.rows && db.rows[id].deletedAt.Some?
    ensures var o := RestoreMasterCode(db, id, Aggregate(db, db.rows[id]).Vector(), clock);
      && (o.reply.Ok? <==> AllUsable(db, db.rows[id].refs))
      && (o.reply.Ok? ==> (OnlyRow(db, o.db, id) && Shows(o, id)
                           && Lifecycle(db.rows[id], o.db.rows[id], false, Later(clock, db.rows[id].updatedAt))))
      && (o.reply.Err? ==> o == Outcome(db, Err(ReferenceInactive)))
  {
    hide Coherent, FinishRow, AllUsable, Load, Compose, MasterCode.Restore, OnlyRow, Referenced;
    LoadSucceeds(db, id);
    if AllUsable(db, db.rows[id].refs) {
      RestoredRow(db, id, Later(clock, db.rows[id].updatedAt));
    }
  }

  lemma RestoredRow(db: Db, id: Id, at: Time)
    requires Coherent(db) && id in db.rows && db.rows[id].deletedAt.Some? && db.rows[id].updatedAt <= at
    requires AllUsable(db, db.rows[id].refs)
    ensures var o := FinishRow(db, Context(None, Some(RestoreCode), at), id, Aggregate(db, db.rows[id]).Restore(at));
      o.reply.Ok? && OnlyRow(db, o.db, id) && Lifecycle(db.rows[id], o.db.rows[id], false, at) && Shows(o, id)
  {
    hide Coherent, MasterCode.Valid, MasterCode.Restore, RowUpdateAllowed, Present, Ids, FinishRow, RowCollides,
      Referenced, OnlyRow, AllUsable;
    var m := LifecycleOf(db, id, None, at);
    RestorationIsAdmitted(db, id, at);
    OwnCodeNeverCollides(db, id, RowOf(m));
    ReplyShows(db, m);
    FinishWrites(db, Context(None, Some(RestoreCode), at), id, m);
    SameTables(db, FinishRow(db, Context(None, Some(RestoreCode), at), id, Ok(m)).db, id);
  }

  /** Deleting a row and restoring it brings it back; only version and update time moved. */
  lemma DeletionIsUndone(db: Db, id: Id, clock: Time, later: Time)
    requires Coherent(db) && id in db.rows && db.rows[id].deletedAt.None?
    ensures var gone := DeleteMasterCode(db, id, Aggregate(db, db.rows[id]).Vector(), clock).db;
      && id in gone.rows
      && var back := RestoreMasterCode(gone, id, Aggregate(gone, gone.rows[id]).Vector(), later);
         back.reply.Ok? && OnlyRow(db, back.db, id)
         && back.db.rows[id] == db.rows[id].(version := db.rows[id].version + 2,
             updatedAt := back.db.rows[id].updatedAt)
  {
    DeletionTakesEffect(db, id, clock);
    var etag := Aggregate(db, db.rows[id]).Vector();
    DeleteCodeKeeps(db, id, etag, clock);
    var gone := DeleteMasterCode(db, id, etag, clock).db;
    ActiveRowIsUsable(db, id);
    RestorationTakesEffect(gone, id, later);
    StillUsable(db, gone, db.rows[id].refs);
    hide Coherent, DeleteMasterCode, RestoreMasterCode, AllUsable;
  }

  lemma StillUsable(a: Db, b: Db, refs: References)
    requires b.dims == a.dims && AllUsable(a, refs)
    ensures AllUsable(b, refs)
  {
    forall s: Slot ensures Usable(b, s, refs[s]) {
      assert Usable(a, s, refs[s]);
    }
  }

  /** An active MasterCode refers to the Dimension. */
  predicate ActivelyReferred(db: Db, key: Key) {
    exists id :: id in db.rows && db.rows[id].deletedAt.None? && db.rows[id].refs[key.slot] == Some(key.id)
  }

  /** A Dimension is deleted exactly when no active row refers to it, and then nothing else changes. */
  lemma DimensionDeletionTakesEffect(db: Db, key: Key, clock: Time)
    requires Coherent(db) && key in db.dims && !db.dims[key].IsDeleted()
    ensures var o := DeleteDimension(db, key, db.dims[key].version, clock);
      var at := Later(clock, db.dims[key].updatedAt);
      var d := db.dims[key].(version := db.dims[key].version + 1, updatedAt := at, deletedAt := Some(at));
      if ActivelyReferred(db, key) then o == Outcome(db, Err(DimensionInUse))
      else o.reply == Ok(DimensionReply(d)) && o.db.dims == db.dims[key := d] && o.db.rows == db.rows
  {
    assert InUse(db, key) <==> ActivelyReferred(db, key);
    hide Coherent, InUse, ActivelyReferred, FinishDimension, LifecycleAllowed, Dimension.Valid, Dimension.Delete;
    if !InUse(db, key) {
      var at := Later(clock, db.dims[key].updatedAt);
      DeletionIsAllowed(db, key, at);
      FinishDimensionKeeps(db, key, Context(Some(DeleteDim), None, at), db.dims[key].Delete(at).value);
    }
  }

  /** A deleted Dimension is always restored, and nothing else changes. */
  lemma DimensionRestorationTakesEffect(db: Db, key: Key, clock: Time)
    requires Coherent(db) && key in db.dims && db.dims[key].IsDeleted()
    ensures var o := RestoreDimension(db, key, db.dims[key].version, clock);
      var at := Later(clock, db.dims[key].updatedAt);
      var d := db.dims[key].(version := db.dims[key].version + 1, updatedAt := at, deletedAt := None);
      o.reply == Ok(DimensionReply(d)) && o.db.dims == db.dims[key := d] && o.db.rows == db.rows
  {
    hide Coherent, InUse, FinishDimension, LifecycleAllowed, Dimension.Valid, Dimension.Restore;
    var at := Later(clock, db.dims[key].updatedAt);
    RestorationIsAllowed(db, key, at);
    FinishDimensionKeeps(db, key, Context(Some(RestoreDim), None, at), db.dims[key].Restore(at).value);
  }

  // ------------------------------------------------------------ creation

  /** What an entered value means: text by its words, anything else as it is. */
  function Meant(raw: Value): Value {
    if raw.TextValue? then TextValue(StringValues.Reference(raw.text)) else raw
  }

  /** Entered values are accepted exactly when what they mean may be stored, and stored as that. */
  lemma ParsedValueMeans(slot: Slot, raw: Value)
    ensures var r := ParseValue(slot, raw);
      && (r.Some? <==> ValidValue(slot, Meant(raw))
                       && (raw.TextValue? ==> forall c :: c in raw.text ==> StringValues.IsInputChar(c)))
      && (r.Some? ==> r.value == Meant(raw))
  {
    if raw.TextValue? {
      StringValues.NormalizeMeaning(raw.text);
      NormalLength(StringValues.Reference(raw.text));
    }
    hide StringValues.Normalize, StringValues.Reference, StringValues.MatchesPattern, StringValues.IsInputChar;
  }

  lemma NormalLength(s: string)
    ensures StringValues.IsNormal(s) ==> 1 <= |s| <= 128
  {
  }

  predicate CodeElsewhere(db: Db, key: Key, code: string) {
    exists k :: k in db.dims && k.slot == key.slot && k != key && db.dims[k].code == code
  }

  predicate ValueElsewhere(db: Db, key: Key, v: Value) {
    exists k :: k in db.dims && k.slot == key.slot && k != key && SameValue(db.dims[k].value, v)
  }

  /** A new Dimension is stored as entered in upper case and normalized, unless code or value is in use in its table. */
  lemma DimensionCreationTakesEffect(db: Db, key: Key, code: string, value: Value, clock: Time)
    requires key !in db.dims && ParseCode(code).Ok? && ParseValue(key.slot, value).Some?
    ensures var o := CreateDimension(db, key, code, value, clock);
      var d := Dimension(key.id, Text.Upper(code), Meant(value), 1, clock, clock, None);
      var c, v := CodeElsewhere(db, key, Text.Upper(code)), ValueElsewhere(db, key, Meant(value));
      if c || v then o == Outcome(db, Err(DimensionConflict(c, v)))
      else o.reply == Ok(DimensionReply(d)) && o.db.dims == db.dims[key := d] && o.db.rows == db.rows
  {
    ParsedValueMeans(key.slot, value);
    var d := Dimension(key.id, Text.Upper(code), Meant(value), 1, clock, clock, None);
    hide ParseCode, ParseValue, Meant, SameValue, ValidCode, ValidValue, AllEntryChecks, InsertEntries, Text.Upper;
    InsertEntriesChecked(key, d);
  }

  /** Malformed codes or values are refused and nothing is stored. */
  lemma MalformedCreationIsRefused(db: Db, key: Key, code: string, value: Value, clock: Time)
    requires ParseCode(code).Err? || ParseValue(key.slot, value).None?
    ensures CreateDimension(db, key, code, value, clock) == Outcome(db, Err(InvalidInput))
  {
    hide ParseCode, ParseValue, CodeTaken, ValueTaken;
  }

  /** Every reference names a stored Dimension of its type that is not deleted. */
  predicate AllActive(db: Db, refs: References) {
    forall s: Slot ::
      refs[s].Some? ==> Key(s, refs[s].value) in db.dims && db.dims[Key(s, refs[s].value)].deletedAt.None?
  }

  /** A new MasterCode is stored with exactly the given references, unless one is unusable or another row has them. */
  lemma CodeCreationTakesEffect(db: Db, id: Id, refs: References, clock: Time)
    requires Coherent(db) && id !in db.rows
    ensures var o := CreateMasterCode(db, id, refs, clock);
      if !AllActive(db, refs) then o == Outcome(db, Err(InvalidReference))
      else if ReferencesTaken(db, id, refs) then o == Outcome(db, Err(MasterCodeConflict))
      else id in o.db.rows && o.db.dims == db.dims && o.db.rows == db.rows[id := o.db.rows[id]] && Shows(o, id)
           && o.db.rows[id] == Row(id, refs, Compose(Referenced(db, refs)), 1, clock, clock, None)
  {
    UsableMeans(db, refs);
    hide Coherent, AllUsable, RowCollides, CodeShape, MasterCode.Valid, MasterCode.Checked, ReferencesTaken, Compose;
    if AllUsable(db, refs) {
      UsableIsPresent(db, refs);
      CreatedRow(db, id, refs, clock);
    }
  }

  lemma UsableMeans(db: Db, refs: References)
    ensures AllUsable(db, refs) <==> AllActive(db, refs)
  {
    if AllUsable(db, refs) {
      forall s: Slot | refs[s].Some?
        ensures Key(s, refs[s].value) in db.dims && db.dims[Key(s, refs[s].value)].deletedAt.None?
      {
        assert Usable(db, s, refs[s]);
      }
    }
  }

  lemma CreatedRow(db: Db, id: Id, refs: References, clock: Time)
    requires Coherent(db) && id !in db.rows && AllUsable(db, refs) && Present(db, refs)
    ensures var o := CreateMasterCode(db, id, refs, clock);
      var row := Row(id, refs, Compose(Referenced(db, refs)), 1, clock, clock, None);
      if ReferencesTaken(db, id, refs) then o == Outcome(db, Err(MasterCodeConflict))
      else o.db.dims == db.dims && o.db.rows == db.rows[id := row] && Shows(o, id)
  {
    UsableIsPresent(db, refs);
    IdsOfReferenced(db, refs);
    var m := MasterCode(id, Referenced(db, refs), Compose(Referenced(db, refs)), 1, clock, clock, None);
    assert MasterCode.Create(id, Referenced(db, refs), clock) == Ok(m) by { hide Coherent, Referenced, Compose; }
    assert m.Valid();
    AggregateRowChecks(db, m);
    CollidesOnlyByReferences(db, id, RowOf(m));
    ReplyShows(db, m);
    hide Coherent, AllUsable, RowCollides, CodeShape, MasterCode.Valid, ReferencesTaken, Compose, Referenced,
      MasterCode.Create, Ids, Present;
  }

  // ------------------------------------------------------------ the whole update

  lemma TakenMeansElsewhere(db: Db, key: Key)
    ensures forall code :: CodeTaken(db, key, code) <==> CodeElsewhere(db, key, code)
    ensures forall v :: ValueTaken(db, key, v) <==> ValueElsewhere(db, key, v)
  {
  }

  /**
   A well-formed update of an active Dimension at its current version: nothing to change is
   answered with the Dimension as it is; a code or value in use elsewhere is a conflict; anything
   else is stored, the code in upper case and the value normalized.
   */
  lemma UpdateGoesThrough(db: Db, key: Key, code: Option<string>, value: Option<Value>, clock: Time)
    requires Coherent(db) && key in db.dims && !db.dims[key].IsDeleted() && (code.Some? || value.Some?)
    requires (code.Some? ==> ParseCode(code.value).Ok?) && (value.Some? ==> ParseValue(key.slot, value.value).Some?)
    ensures var o := UpdateDimension(db, key, db.dims[key].version, code, value, clock);
      var d := db.dims[key];
      var c := code.Some? && Text.Upper(code.value) != d.code;
      var v := value.Some? && !SameValue(d.value, Meant(value.value));
      var codeTaken := c && CodeElsewhere(db, key, Text.Upper(code.value));
      var valueTaken := v && ValueElsewhere(db, key, Meant(value.value));
      if !c && !v then o == Outcome(db, Ok(DimensionReply(d)))
      else if codeTaken || valueTaken then o == Outcome(db, Err(DimensionConflict(codeTaken, valueTaken)))
      else && OnlyDimension(db, o.db, key) && o.reply == Ok(DimensionReply(o.db.dims[key]))
           && o.db.dims[key].code == (if code.Some? then Text.Upper(code.value) else d.code)
           && o.db.dims[key].value == (if v then Meant(value.value) else d.value)
           && o.db.dims[key].version == d.version + 1
           && RowsFollow(db, o.db, key, c, o.db.dims[key].updatedAt)
           && MutationTime(db, key, c, clock, o.db.dims[key].updatedAt)
  {
    if value.Some? { ParsedValueMeans(key.slot, value.value); }
    StoredDimensionChecks(db, key);
    TakenMeansElsewhere(db, key);
    hide Coherent, ParseCode, ParseValue, Meant, SameValue, ValidCode, ValidValue, RowsFollow, MutationTime, Text.Upper,
      ApplyChange, Referencing, Dimension.Valid, CodeTaken, ValueTaken, CodeElsewhere, ValueElsewhere, OnlyDimension;
    var c := if code.None? then None else Some(Text.Upper(code.value));
    var v := if value.None? then None else Some(Meant(value.value));
    if MayUpdate(db, key, c, v) { UpdateTakesEffect(db, key, c, v, clock); }
  }
}
