/** Row guards and audit-log writers of the database, in their latest form. */
module Triggers {
  import opened Wrappers
  import opened Dimensions
  import opened MasterCodes

  datatype DimensionOperation = CreateDim | UpdateDim | DeleteDim | RestoreDim
  datatype CodeOperation = CreateCode | ReferenceUpdate | Recompose | DeleteCode | RestoreCode

  /** The transaction-local audit context every trigger reads. */
  datatype Context = Context(
    dimension: Option<DimensionOperation>,
    masterCode: Option<CodeOperation>,
    timestamp: Time)

  datatype Key = Key(slot: Slot, id: Id)

  datatype Row = Row(
    id: Id,
    refs: References,
    code: string,
    version: int,
    createdAt: Time,
    updatedAt: Time,
    deletedAt: Option<Time>)

  // ------------------------------------------------------- Dimension guards

  predicate DimensionInsertAllowed(ctx: Context, next: Dimension) {
    ctx.dimension == Some(CreateDim)
    && next.version == 1 && next.createdAt == next.updatedAt && next.deletedAt.None?
  }

  predicate AdvancesOnce(ctx: Context, prior: Dimension, next: Dimension) {
    next.version == prior.version + 1 && next.updatedAt == ctx.timestamp && prior.updatedAt <= next.updatedAt
  }

  predicate LifecycleAllowed(ctx: Context, prior: Dimension, next: Dimension, inUse: bool)
    requires ctx.dimension == Some(DeleteDim) || ctx.dimension == Some(RestoreDim)
  {
    next.id == prior.id && next.createdAt == prior.createdAt && next.code == prior.code && next.value == prior.value
    && (if ctx.dimension == Some(DeleteDim)
        then prior.deletedAt.None? && next.deletedAt == Some(ctx.timestamp) && !inUse
        else prior.deletedAt.Some? && next.deletedAt.None?)
    && AdvancesOnce(ctx, prior, next)
  }

  predicate ValueUpdateAllowed(ctx: Context, prior: Dimension, next: Dimension) {
    prior.deletedAt.None?
    && ctx.dimension == Some(UpdateDim)
    && next.id == prior.id && next.createdAt == prior.createdAt && next.deletedAt == prior.deletedAt
    // An equivalent memory value must keep its stored amount and unit.
    && (SameValue(prior.value, next.value) ==> next.value == prior.value)
    && (next.code != prior.code ==> ctx.masterCode == Some(Recompose))
    && (if next.code != prior.code || !SameValue(prior.value, next.value)
        then AdvancesOnce(ctx, prior, next)
        else next.version == prior.version && next.updatedAt == prior.updatedAt)
  }

  predicate DimensionUpdateAllowed(ctx: Context, prior: Dimension, next: Dimension, inUse: bool) {
    if ctx.dimension == Some(DeleteDim) || ctx.dimension == Some(RestoreDim)
    then LifecycleAllowed(ctx, prior, next, inUse)
    else ValueUpdateAllowed(ctx, prior, next)
  }

  /** CHECK constraints of a Dimension table. */
  predicate DimensionChecks(slot: Slot, d: Dimension) {
    ValidCode(d.code) && ValidValue(slot, d.value) && d.version >= 1 && d.createdAt <= d.updatedAt
    && (d.deletedAt.Some? ==> d.createdAt <= d.deletedAt.value <= d.updatedAt)
  }

  // ------------------------------------------------------ MasterCode guards

  predicate RowInsertAllowed(ctx: Context, next: Row) {
    ctx.masterCode == Some(CreateCode)
    && next.version == 1 && next.createdAt == next.updatedAt && next.createdAt == ctx.timestamp
    && next.deletedAt.None?
  }

  predicate RowTransitionAllowed(ctx: Context, prior: Row, next: Row) {
    match ctx.masterCode
    case None => false
    case Some(CreateCode) => false
    case Some(Recompose) => next.refs == prior.refs && next.code != prior.code && next.deletedAt == prior.deletedAt
    case Some(ReferenceUpdate) =>
      next.refs != prior.refs && next.code != prior.code && prior.deletedAt.None? && next.deletedAt.None?
    case Some(DeleteCode) =>
      next.refs == prior.refs && next.code == prior.code && prior.deletedAt.None?
      && next.deletedAt == Some(ctx.timestamp)
    case Some(RestoreCode) => next.refs == prior.refs && prior.deletedAt.Some? && next.deletedAt.None?
  }

  predicate RowUpdateAllowed(ctx: Context, prior: Row, next: Row) {
    RowTransitionAllowed(ctx, prior, next)
    && next.id == prior.id && next.createdAt == prior.createdAt
    && next.version == prior.version + 1 && next.updatedAt == ctx.timestamp && prior.updatedAt <= next.updatedAt
  }

  /** CHECK constraints and column width of the MasterCode table. */
  predicate RowChecks(r: Row) { CodeShape(r.code) && RowTimes(r) }

  predicate RowTimes(r: Row) {
    r.version >= 1 && r.createdAt <= r.updatedAt
    && (r.deletedAt.Some? ==> r.createdAt <= r.deletedAt.value <= r.updatedAt)
  }

  // -------------------------------------------------------------- audit logs

  datatype Field =
    | CodeField(oldCode: Option<string>, newCode: string)
    | ValueField(oldValue: Option<Value>, newValue: Value)
    | DeletedField(oldDeleted: bool, newDeleted: bool)

  datatype DimensionEntry = DimensionEntry(
    key: Key, version: int, operation: DimensionOperation, field: Field, changedAt: Time)

  datatype Snapshot = Snapshot(refs: References, code: string, deleted: bool)

  datatype CodeEntry = CodeEntry(
    id: Id, version: int, operation: CodeOperation, prior: Option<Snapshot>, next: Snapshot, changedAt: Time)

  function SnapshotOf(r: Row): Snapshot { Snapshot(r.refs, r.code, r.deletedAt.Some?) }

  function InsertEntries(key: Key, d: Dimension): seq<DimensionEntry> {
    [DimensionEntry(key, d.version, CreateDim, CodeField(None, d.code), d.updatedAt),
     DimensionEntry(key, d.version, CreateDim, ValueField(None, d.value), d.updatedAt)]
  }

  function LifecycleEntries(key: Key, prior: Dimension, next: Dimension): seq<DimensionEntry> {
    if prior.IsDeleted() == next.IsDeleted() then []
    else [DimensionEntry(key, next.version, if next.IsDeleted() then DeleteDim else RestoreDim,
                         DeletedField(prior.IsDeleted(), next.IsDeleted()), next.updatedAt)]
  }

  function CodeEntries(key: Key, prior: Dimension, next: Dimension): seq<DimensionEntry> {
    if next.code == prior.code then []
    else [DimensionEntry(key, next.version, UpdateDim, CodeField(Some(prior.code), next.code), next.updatedAt)]
  }

  function ValueEntries(key: Key, prior: Dimension, next: Dimension): seq<DimensionEntry> {
    if SameValue(prior.value, next.value) then []
    else [DimensionEntry(key, next.version, UpdateDim, ValueField(Some(prior.value), next.value), next.updatedAt)]
  }

  function UpdateEntries(key: Key, prior: Dimension, next: Dimension): seq<DimensionEntry> {
    LifecycleEntries(key, prior, next) + CodeEntries(key, prior, next) + ValueEntries(key, prior, next)
  }

  function InsertEntry(r: Row): CodeEntry {
    CodeEntry(r.id, r.version, CreateCode, None, Snapshot(r.refs, r.code, false), r.updatedAt)
  }

  function UpdateEntry(operation: CodeOperation, prior: Row, next: Row): CodeEntry {
    CodeEntry(next.id, next.version, operation, Some(SnapshotOf(prior)), SnapshotOf(next), next.updatedAt)
  }

  // -------------------------------------------- CHECK constraints of the log tables

  /** Which fields an operation logs, and what its old value may be. */
  predicate ChangeShape(operation: DimensionOperation, field: Field) {
    match operation
    case CreateDim => (field.CodeField? && field.oldCode.None?) || (field.ValueField? && field.oldValue.None?)
    case UpdateDim =>
      (field.CodeField? && field.oldCode.Some? && field.oldCode.value != field.newCode)
      || (field.ValueField? && field.oldValue.Some? && field.oldValue.value != field.newValue)
    case DeleteDim => field == DeletedField(false, true)
    case RestoreDim => field == DeletedField(true, false)
  }

  /** What a logged code or value looks like. */
  predicate FieldShape(slot: Slot, field: Field) {
    match field
    case CodeField(a, b) => (a.Some? ==> ValidCode(a.value)) && ValidCode(b)
    case ValueField(a, b) => (a.Some? ==> ValidValue(slot, a.value)) && ValidValue(slot, b)
    case DeletedField(_, _) => true
  }

  predicate EntryChecks(e: DimensionEntry) {
    e.version >= 1 && ChangeShape(e.operation, e.field) && FieldShape(e.key.slot, e.field)
  }

  predicate AllEntryChecks(es: seq<DimensionEntry>) { forall i :: 0 <= i < |es| ==> EntryChecks(es[i]) }

  predicate CodeEntryChecks(e: CodeEntry) {
    e.version >= 1 && (e.operation == CreateCode <==> e.prior.None?)
    && (e.prior.Some? ==> CodeShape(e.prior.value.code)) && CodeShape(e.next.code)
  }

  lemma InsertEntriesChecked(key: Key, d: Dimension)
    requires DimensionChecks(key.slot, d)
    ensures AllEntryChecks(InsertEntries(key, d))
  {
  }

  /** Between two rows that satisfy the table's constraints every update is logged admissibly. */
  lemma UpdateEntriesChecked(key: Key, prior: Dimension, next: Dimension)
    requires DimensionChecks(key.slot, prior) && DimensionChecks(key.slot, next)
    ensures AllEntryChecks(UpdateEntries(key, prior, next))
  {
    SameValueIsEquivalence(prior.value, next.value, next.value);
    hide ValidCode, ValidValue;
    assert AllEntryChecks(LifecycleEntries(key, prior, next));
    assert AllEntryChecks(CodeEntries(key, prior, next));
    assert AllEntryChecks(ValueEntries(key, prior, next));
  }

  lemma UpdateEntryChecked(ctx: Context, prior: Row, next: Row)
    requires RowUpdateAllowed(ctx, prior, next) && RowChecks(prior) && RowChecks(next)
    ensures CodeEntryChecks(UpdateEntry(ctx.masterCode.value, prior, next))
  {
  }
}
