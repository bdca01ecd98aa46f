/**
 The master-data store as values: what each committed transaction does to the
 eight Dimension tables, the MasterCode table and the two audit logs. A refused
 transaction leaves the store as it was.
 */
module MasterData {
  import opened Wrappers
  import opened Dimensions
  import opened MasterCodes
  import opened Triggers
  import opened Ordering
  import StringValues

  datatype Db = Db(
    dims: map<Key, Dimension>,
    rows: map<Id, Row>,
    dimLog: seq<DimensionEntry>,
    codeLog: seq<CodeEntry>)

  const EMPTY := Db(map[], map[], [], [])

  datatype StoreError =
    | InvalidInput | NotFound | NotDeleted | PreconditionFailed | InvalidReference
    | DimensionConflict(code: bool, value: bool) | MasterCodeConflict
    | DimensionInUse | ReferenceInactive
    // Failures no caller can provoke: a stored aggregate fails validation, or a
    // trigger or constraint refuses what the domain produced.
    | Corrupt | Rejected

  datatype Reply = DimensionReply(dimension: Dimension) | CodeReply(masterCode: MasterCode)

  datatype Outcome = Outcome(db: Db, reply: Result<Reply, StoreError>)

  // ------------------------------------------------------------ row writers

  predicate Refers(r: Row, key: Key) { r.refs[key.slot] == Some(key.id) }

  predicate InUse(db: Db, key: Key) {
    exists id :: id in db.rows && Refers(db.rows[id], key) && db.rows[id].deletedAt.None?
  }

  predicate CodeTaken(db: Db, key: Key, code: string) {
    exists k :: k in db.dims && k.slot == key.slot && k != key && db.dims[k].code == code
  }

  predicate ValueTaken(db: Db, key: Key, v: Value) {
    exists k :: k in db.dims && k.slot == key.slot && k != key && SameValue(db.dims[k].value, v)
  }

  function InsertDimension(db: Db, ctx: Context, key: Key, d: Dimension): (r: Result<Db, StoreError>) {
    if !DimensionInsertAllowed(ctx, d) || !DimensionChecks(key.slot, d) then Err(Rejected)
    else if key in db.dims || CodeTaken(db, key, d.code) || ValueTaken(db, key, d.value) then Err(Rejected)
    else if !AllEntryChecks(InsertEntries(key, d)) then Err(Rejected)
    else Ok(db.(dims := db.dims[key := d], dimLog := db.dimLog + InsertEntries(key, d)))
  }

  function WriteDimension(db: Db, ctx: Context, key: Key, d: Dimension): (r: Result<Db, StoreError>)
    requires key in db.dims
  {
    if !DimensionUpdateAllowed(ctx, db.dims[key], d, InUse(db, key)) || !DimensionChecks(key.slot, d)
    then Err(Rejected)
    else if CodeTaken(db, key, d.code) || ValueTaken(db, key, d.value) then Err(Rejected)
    else if !AllEntryChecks(UpdateEntries(key, db.dims[key], d)) then Err(Rejected)
    else Ok(db.(dims := db.dims[key := d], dimLog := db.dimLog + UpdateEntries(key, db.dims[key], d)))
  }

  /** The two UNIQUE constraints on MasterCodes cover deleted rows as well. */
  predicate RowCollides(db: Db, own: Id, r: Row) {
    exists id :: id in db.rows && id != own && (db.rows[id].code == r.code || db.rows[id].refs == r.refs)
  }

  function InsertRow(db: Db, ctx: Context, r: Row): (res: Result<Db, StoreError>) {
    if !RowInsertAllowed(ctx, r) || !RowChecks(r) || r.id in db.rows then Err(Rejected)
    else if RowCollides(db, r.id, r) then Err(MasterCodeConflict)
    else if !CodeEntryChecks(InsertEntry(r)) then Err(Rejected)
    else Ok(db.(rows := db.rows[r.id := r], codeLog := db.codeLog + [InsertEntry(r)]))
  }

  function WriteRow(db: Db, ctx: Context, id: Id, r: Row): (res: Result<Db, StoreError>)
    requires id in db.rows
  {
    if !RowUpdateAllowed(ctx, db.rows[id], r) || !RowChecks(r) then Err(Rejected)
    else if RowCollides(db, id, r) then Err(MasterCodeConflict)
    else if !CodeEntryChecks(UpdateEntry(ctx.masterCode.value, db.rows[id], r)) then Err(Rejected)
    else Ok(db.(rows := db.rows[id := r],
                codeLog := db.codeLog + [UpdateEntry(ctx.masterCode.value, db.rows[id], r)]))
  }

  // ---------------------------------------------------------------- reading

  function Referenced(db: Db, refs: References): Dimensions8 {
    seq(SLOTS, i requires 0 <= i < SLOTS => Lookup(db, i, refs[i]))
  }

  function Lookup(db: Db, slot: Slot, ref: Option<Id>): Option<Dimension> {
    if ref.Some? && Key(slot, ref.value) in db.dims then Some(db.dims[Key(slot, ref.value)]) else None
  }

  function Aggregate(db: Db, r: Row): MasterCode {
    MasterCode(r.id, Referenced(db, r.refs), r.code, r.version, r.createdAt, r.updatedAt, r.deletedAt)
  }

  /** Joins a row with its Dimensions; the aggregate validates itself. */
  function Load(db: Db, id: Id): (r: Result<MasterCode, StoreError>)
    requires id in db.rows
  {
    match Aggregate(db, db.rows[id]).Checked()
    case Ok(m) => Ok(m)
    case Err(_) => Err(Corrupt)
  }

  function RowOf(m: MasterCode): Row {
    Row(m.id, Ids(m.dims), m.code, m.version, m.createdAt, m.updatedAt, m.deletedAt)
  }

  function Later(a: Time, b: Time): (t: Time)
    ensures t >= a && t >= b && (t == a || t == b)
  {
    if a < b then b else a
  }

  // ------------------------------------------------------------- Dimensions

  function ParseValue(slot: Slot, raw: Value): (r: Option<Value>)
    ensures r.Some? ==> ValidValue(slot, r.value)
  {
    if raw.TextValue? then
      match StringValues.Normalize(raw.text)
      case Ok(t) => if ValidValue(slot, TextValue(t)) then Some(TextValue(t)) else None
      case Err(_) => None
    else if ValidValue(slot, raw) then Some(raw) else None
  }

  function CreateDimension(db: Db, key: Key, rawCode: string, rawValue: Value, clock: Time): Outcome {
    var code, value := ParseCode(rawCode), ParseValue(key.slot, rawValue);
    if code.Err? || value.None? || key in db.dims then Outcome(db, Err(InvalidInput))
    else if CodeTaken(db, key, code.value) || ValueTaken(db, key, value.value) then
      Outcome(db, Err(DimensionConflict(CodeTaken(db, key, code.value), ValueTaken(db, key, value.value))))
    else
      var d := Dimension(key.id, code.value, value.value, 1, clock, clock, None);
      match InsertDimension(db, Context(Some(CreateDim), None, clock), key, d)
      case Ok(next) => Outcome(next, Ok(DimensionReply(d)))
      case Err(e) => Outcome(db, Err(e))
  }

  function Referencing(db: Db, key: Key): set<Id> {
    set id | id in db.rows && Refers(db.rows[id], key)
  }

  /** The largest update time among a floor and the listed rows. */
  function LatestUpdate(db: Db, ids: seq<Id>, floor: Time): (t: Time)
    requires forall id :: id in ids ==> id in db.rows
    ensures t >= floor && forall id :: id in ids ==> t >= db.rows[id].updatedAt
  {
    if ids == [] then floor
    else
      var t := LatestUpdate(db, ids[..|ids| - 1], floor);
      assert forall id :: id in ids ==> id in ids[..|ids| - 1] || id == ids[|ids| - 1];
      Later(t, db.rows[ids[|ids| - 1]].updatedAt)
  }

  /** Recomposes one locked row, as loaded from `base`, after `changed` replaced its Dimension. */
  function RecomposeRow(db: Db, base: Db, ctx: Context, slot: Slot, changed: Dimension, id: Id)
    : (r: Result<Db, StoreError>)
    requires id in base.rows && id in db.rows
  {
    match Load(base, id)
    case Err(e) => Err(e)
    case Ok(current) =>
      match current.Recompose(current.dims[slot := Some(changed)], ctx.timestamp)
      case Err(_) => Err(Corrupt)
      case Ok(next) =>
        if next == current then Ok(db)
        else WriteRow(db, ctx, id, db.rows[id].(code := next.code, version := next.version,
                                            updatedAt := next.updatedAt))
  }

  function RecomposeRows(db: Db, base: Db, ctx: Context, slot: Slot, changed: Dimension, ids: seq<Id>)
    : (r: Result<Db, StoreError>)
    requires forall id :: id in ids ==> id in base.rows && id in db.rows
    ensures r.Ok? ==> r.value.rows.Keys == db.rows.Keys
  {
    if ids == [] then Ok(db)
    else
      match RecomposeRows(db, base, ctx, slot, changed, ids[..|ids| - 1])
      case Err(e) => Err(e)
      case Ok(mid) => RecomposeRow(mid, base, ctx, slot, changed, ids[|ids| - 1])
  }

  predicate ChangesCode(d: Dimension, code: Option<string>) { code.Some? && code.value != d.code }

  predicate ChangesValue(d: Dimension, v: Option<Value>) { v.Some? && !SameValue(d.value, v.value) }

  function UpdateDimension(
    db: Db, key: Key, expected: int, rawCode: Option<string>, rawValue: Option<Value>, clock: Time): Outcome
  {
    if expected < 1 || (rawCode.None? && rawValue.None?)
       || (rawCode.Some? && ParseCode(rawCode.value).Err?)
       || (rawValue.Some? && ParseValue(key.slot, rawValue.value).None?) then
      Outcome(db, Err(InvalidInput))
    else
      var code := if rawCode.None? then None else Some(ParseCode(rawCode.value).value);
      var value := if rawValue.None? then None else ParseValue(key.slot, rawValue.value);
      ConditionalChange(db, key, expected, code, value, clock)
  }

  function ConditionalChange(
    db: Db, key: Key, expected: int, code: Option<string>, value: Option<Value>, clock: Time): Outcome
  {
    if key !in db.dims || db.dims[key].IsDeleted() then Outcome(db, Err(NotFound))
    else
      var current := db.dims[key];
      var newCode, newValue := ChangesCode(current, code), ChangesValue(current, value);
      if current.version != expected then Outcome(db, Err(PreconditionFailed))
      else if !newCode && !newValue then Outcome(db, Ok(DimensionReply(current)))
      else
        var codeTaken := newCode && CodeTaken(db, key, code.value);
        var valueTaken := newValue && ValueTaken(db, key, value.value);
        if codeTaken || valueTaken then Outcome(db, Err(DimensionConflict(codeTaken, valueTaken)))
        else ApplyChange(db, key, code, value, clock)
  }

  /** The part of an update that writes: the Dimension, then every referencing row. */
  function ApplyChange(db: Db, key: Key, code: Option<string>, value: Option<Value>, clock: Time): Outcome
    requires key in db.dims
  {
    var current := db.dims[key];
    var ids := if ChangesCode(current, code) then Ascending(Referencing(db, key)) else [];
    var at := Later(clock, LatestUpdate(db, ids, current.updatedAt));
    var ctx := Context(Some(UpdateDim), if code.Some? then Some(Recompose) else None, at);
    match current.Change(code, value, at)
    case Err(_) => Outcome(db, Err(Corrupt))
    case Ok(changed) =>
      match WriteDimension(db, ctx, key, changed)
      case Err(e) => Outcome(db, Err(e))
      case Ok(mid) =>
        match RecomposeRows(mid, db, ctx, key.slot, changed, ids)
        case Err(e) => Outcome(db, Err(e))
        case Ok(next) => Outcome(next, Ok(DimensionReply(changed)))
  }

  function DeleteDimension(db: Db, key: Key, expected: int, clock: Time): Outcome {
    if key !in db.dims || db.dims[key].IsDeleted() then Outcome(db, Err(NotFound))
    else if db.dims[key].version != expected then Outcome(db, Err(PreconditionFailed))
    else if InUse(db, key) then Outcome(db, Err(DimensionInUse))
    else
      var at := Later(clock, db.dims[key].updatedAt);
      FinishDimension(db, key, Context(Some(DeleteDim), None, at), db.dims[key].Delete(at))
  }

  function RestoreDimension(db: Db, key: Key, expected: int, clock: Time): Outcome {
    if key !in db.dims then Outcome(db, Err(NotFound))
    else if !db.dims[key].IsDeleted() then Outcome(db, Err(NotDeleted))
    else if db.dims[key].version != expected then Outcome(db, Err(PreconditionFailed))
    else
      var at := Later(clock, db.dims[key].updatedAt);
      FinishDimension(db, key, Context(Some(RestoreDim), None, at), db.dims[key].Restore(at))
  }

  function FinishDimension(db: Db, key: Key, ctx: Context, d: Result<Dimension, DimensionError>): Outcome
    requires key in db.dims
  {
    match d
    case Err(_) => Outcome(db, Err(Corrupt))
    case Ok(changed) =>
      match WriteDimension(db, ctx, key, changed)
      case Err(e) => Outcome(db, Err(e))
      case Ok(next) => Outcome(next, Ok(DimensionReply(changed)))
  }

  // ------------------------------------------------------------ MasterCodes

  predicate Usable(db: Db, slot: Slot, ref: Option<Id>) {
    ref.Some? ==> Key(slot, ref.value) in db.dims && !db.dims[Key(slot, ref.value)].IsDeleted()
  }

  predicate AllUsable(db: Db, refs: References) {
    forall s: Slot :: Usable(db, s, refs[s])
  }

  function CreateMasterCode(db: Db, id: Id, refs: References, clock: Time): Outcome {
    if id in db.rows then Outcome(db, Err(InvalidInput))
    else if !AllUsable(db, refs) then Outcome(db, Err(InvalidReference))
    else
      match MasterCode.Create(id, Referenced(db, refs), clock)
      case Err(_) => Outcome(db, Err(Corrupt))
      case Ok(m) =>
        match InsertRow(db, Context(None, Some(CreateCode), clock), RowOf(m))
        case Err(e) => Outcome(db, Err(e))
        case Ok(next) => Outcome(next, Ok(CodeReply(m)))
  }

  datatype SlotChange = Keep | Clear | Use(id: Id)
  type SlotChanges = c: seq<SlotChange> | |c| == SLOTS witness [Keep, Keep, Keep, Keep, Keep, Keep, Keep, Keep]

  function Resolve(refs: References, changes: SlotChanges): References {
    seq(SLOTS, i requires 0 <= i < SLOTS =>
      match changes[i] case Keep => refs[i] case Clear => None case Use(id) => Some(id))
  }

  predicate ChangesUsable(db: Db, changes: SlotChanges) {
    forall s: Slot :: changes[s].Use? ==> Usable(db, s, Some(changes[s].id))
  }

  function UpdateReferences(db: Db, id: Id, changes: SlotChanges, etag: EtagVector, clock: Time): Outcome {
    if id !in db.rows || db.rows[id].deletedAt.Some? then Outcome(db, Err(NotFound))
    else
      var row := db.rows[id];
      match Load(db, id)
      case Err(e) => Outcome(db, Err(e))
      case Ok(current) =>
        if !AllUsable(db, row.refs) then Outcome(db, Err(PreconditionFailed))
        else if !ChangesUsable(db, changes) then Outcome(db, Err(InvalidReference))
        else if current.Vector() != etag then Outcome(db, Err(PreconditionFailed))
        else
          var refs := Resolve(row.refs, changes);
          if refs == row.refs then Outcome(db, Ok(CodeReply(current)))
          else
            var at := Later(clock, row.updatedAt);
            FinishRow(db, Context(None, Some(ReferenceUpdate), at), id,
                      current.UpdateReferences(Referenced(db, refs), at))
  }

  function FinishRow(db: Db, ctx: Context, id: Id, m: Result<MasterCode, MasterCodeError>): Outcome
    requires id in db.rows
  {
    match m
    case Err(_) => Outcome(db, Err(Corrupt))
    case Ok(updated) =>
      match WriteRow(db, ctx, id, RowOf(updated))
      case Err(e) => Outcome(db, Err(e))
      case Ok(next) => Outcome(next, Ok(CodeReply(updated)))
  }

  function DeleteMasterCode(db: Db, id: Id, etag: EtagVector, clock: Time): Outcome {
    if id !in db.rows || db.rows[id].deletedAt.Some? then Outcome(db, Err(NotFound))
    else
      match Load(db, id)
      case Err(e) => Outcome(db, Err(e))
      case Ok(current) =>
        if current.Vector() != etag then Outcome(db, Err(PreconditionFailed))
        else
          var at := Later(clock, current.updatedAt);
          FinishRow(db, Context(None, Some(DeleteCode), at), id, current.Delete(at))
  }

  function RestoreMasterCode(db: Db, id: Id, etag: EtagVector, clock: Time): Outcome {
    if id !in db.rows then Outcome(db, Err(NotFound))
    else if db.rows[id].deletedAt.None? then Outcome(db, Err(NotDeleted))
    else
      match Load(db, id)
      case Err(e) => Outcome(db, Err(e))
      case Ok(current) =>
        if current.Vector() != etag then Outcome(db, Err(PreconditionFailed))
        else if !AllUsable(db, db.rows[id].refs) then Outcome(db, Err(ReferenceInactive))
        else
          var at := Later(clock, current.updatedAt);
          FinishRow(db, Context(None, Some(RestoreCode), at), id, current.Restore(at))
  }

  // -------------------------------------------------------------- commands

  datatype Command =
    | DoCreateDimension(key: Key, rawCode: string, rawValue: Value, clock: Time)
    | DoUpdateDimension(key: Key, expected: int, newCode: Option<string>, newValue: Option<Value>, clock: Time)
    | DoDeleteDimension(key: Key, expected: int, clock: Time)
    | DoRestoreDimension(key: Key, expected: int, clock: Time)
    | DoCreateCode(id: Id, refs: References, clock: Time)
    | DoUpdateReferences(id: Id, changes: SlotChanges, etag: EtagVector, clock: Time)
    | DoDeleteCode(id: Id, etag: EtagVector, clock: Time)
    | DoRestoreCode(id: Id, etag: EtagVector, clock: Time)

  function Exec(db: Db, c: Command): Outcome {
    match c
    case DoCreateDimension(key, code, value, t) => CreateDimension(db, key, code, value, t)
    case DoUpdateDimension(key, v, code, value, t) => UpdateDimension(db, key, v, code, value, t)
    case DoDeleteDimension(key, v, t) => DeleteDimension(db, key, v, t)
    case DoRestoreDimension(key, v, t) => RestoreDimension(db, key, v, t)
    case DoCreateCode(id, refs, t) => CreateMasterCode(db, id, refs, t)
    case DoUpdateReferences(id, changes, etag, t) => UpdateReferences(db, id, changes, etag, t)
    case DoDeleteCode(id, etag, t) => DeleteMasterCode(db, id, etag, t)
    case DoRestoreCode(id, etag, t) => RestoreMasterCode(db, id, etag, t)
  }

  /** The store after a run of commands; the clock readings need not be monotone. */
  function After(run: seq<Command>): Db {
    if run == [] then EMPTY else Exec(After(run[..|run| - 1]), run[|run| - 1]).db
  }
}
