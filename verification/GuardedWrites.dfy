/**
 What the database alone protects: any client may write any rows under any audit context, and
 the guards and log writers still keep identity, order and history.
 */
module GuardedWrites {
  import opened Wrappers
  import opened Dimensions
  import opened MasterCodes
  import opened Triggers
  import opened MasterData
  import opened AuditTrail
  import opened StrongValidator

  datatype Write =
    | NewDimension(ctx: Context, key: Key, dimension: Dimension)
    | ChangedDimension(ctx: Context, key: Key, dimension: Dimension)
    | NewRow(ctx: Context, row: Row)
    | ChangedRow(ctx: Context, id: Id, row: Row)

  /** One statement: stored and logged, or refused without effect. */
  function Written(db: Db, w: Write): Db {
    match w
    case NewDimension(ctx, key, d) =>
      var r := InsertDimension(db, ctx, key, d); if r.Ok? then r.value else db
    case ChangedDimension(ctx, key, d) =>
      if key !in db.dims then db else var r := WriteDimension(db, ctx, key, d); if r.Ok? then r.value else db
    case NewRow(ctx, row) =>
      var r := InsertRow(db, ctx, row); if r.Ok? then r.value else db
    case ChangedRow(ctx, id, row) =>
      if id !in db.rows then db else var r := WriteRow(db, ctx, id, row); if r.Ok? then r.value else db
  }

  function AfterAll(ws: seq<Write>): Db {
    if ws == [] then EMPTY else Written(AfterAll(ws[..|ws| - 1]), ws[|ws| - 1])
  }

  // ------------------------------------------------------------------ one write

  /** What each operation may change in a MasterCode row, and what it must. */
  lemma GuardedRow(ctx: Context, a: Row, b: Row)
    requires RowUpdateAllowed(ctx, a, b)
    ensures b == Row(a.id, b.refs, b.code, a.version + 1, a.createdAt, ctx.timestamp, b.deletedAt)
    ensures a.updatedAt <= ctx.timestamp && ctx.masterCode.Some?
    ensures match ctx.masterCode.value
      case CreateCode => false
      case Recompose => b.refs == a.refs && b.code != a.code && b.deletedAt == a.deletedAt
      case ReferenceUpdate => b.refs != a.refs && b.code != a.code && a.deletedAt.None? && b.deletedAt.None?
      case DeleteCode =>
        b.refs == a.refs && b.code == a.code && a.deletedAt.None? && b.deletedAt == Some(ctx.timestamp)
      case RestoreCode => b.refs == a.refs && a.deletedAt.Some? && b.deletedAt.None?
  {
  }

  /** What each operation may change in a Dimension row. */
  lemma GuardedDimension(ctx: Context, a: Dimension, b: Dimension, inUse: bool)
    requires DimensionUpdateAllowed(ctx, a, b, inUse) && b != a
    ensures b == Dimension(a.id, b.code, b.value, a.version + 1, a.createdAt, ctx.timestamp, b.deletedAt)
    ensures a.updatedAt <= ctx.timestamp && ctx.dimension.Some?
    ensures match ctx.dimension.value
      case CreateDim => false
      case UpdateDim =>
        a.deletedAt.None? && b.deletedAt.None? && (b.code != a.code ==> ctx.masterCode == Some(Recompose))
        && (b.value != a.value ==> !SameValue(a.value, b.value))
      case DeleteDim =>
        b.code == a.code && b.value == a.value && a.deletedAt.None? && b.deletedAt == Some(ctx.timestamp) && !inUse
      case RestoreDim => b.code == a.code && b.value == a.value && a.deletedAt.Some? && b.deletedAt.None?
  {
  }

  /** Inserted rows start at version 1, undeleted, under a creation. */
  lemma GuardedInserts(ctx: Context, d: Dimension, r: Row)
    ensures DimensionInsertAllowed(ctx, d) ==>
      ctx.dimension == Some(CreateDim) && d == Dimension(d.id, d.code, d.value, 1, d.createdAt, d.createdAt, None)
    ensures RowInsertAllowed(ctx, r) ==>
      ctx.masterCode == Some(CreateCode) && r == Row(r.id, r.refs, r.code, 1, ctx.timestamp, ctx.timestamp, None)
  {
  }

  // ------------------------------------------------------------------ whole runs

  predicate DimensionAges(a: Dimension, b: Dimension) {
    b.id == a.id && b.createdAt == a.createdAt && a.updatedAt <= b.updatedAt
  }

  predicate RowAges(a: Row, b: Row) { b.id == a.id && b.createdAt == a.createdAt && a.updatedAt <= b.updatedAt }

  /** Identity and creation time are for ever; a row stays as it is, or moves to later versions and not back in time. */
  predicate Ages(a: Db, b: Db) {
    && (forall k :: k in a.dims ==> k in b.dims && DimensionAges(a.dims[k], b.dims[k]))
    && (forall i :: i in a.rows ==> i in b.rows && RowAges(a.rows[i], b.rows[i]))
  }

  lemma WriteAges(db: Db, w: Write)
    ensures Ages(db, Written(db, w))
  {
    hide CodeTaken, ValueTaken, RowCollides, AllEntryChecks, CodeEntryChecks, RowChecks, DimensionChecks, InUse,
      UpdateEntries, InsertEntries;
  }

  lemma WriteIsLogged(db: Db, w: Write)
    requires RowsNamed(db) && Logged(db)
    ensures RowsNamed(Written(db, w)) && Logged(Written(db, w)) && Extends(db, Written(db, w))
  {
    ExtendsReflexive(db);
    match w
    case NewDimension(ctx, key, d) =>
      hide Logged, Extends;
      if InsertDimension(db, ctx, key, d).Ok? { InsertDimensionAdvances(db, ctx, key, d); }
    case ChangedDimension(ctx, key, d) =>
      hide Logged, Extends;
      if key in db.dims && WriteDimension(db, ctx, key, d).Ok? { WriteDimensionAdvances(db, ctx, key, d); }
    case NewRow(ctx, row) =>
      hide Logged, Extends, RowChecks, CodeEntryChecks;
      if InsertRow(db, ctx, row).Ok? { InsertRowAdvances(db, ctx, row); }
    case ChangedRow(ctx, id, row) =>
      hide Logged, Extends;
      if id in db.rows && WriteRow(db, ctx, id, row).Ok? { WriteRowAdvances(db, ctx, id, row); }
  }

  /** Whatever clients write, both logs tell the exact history, entry by entry and version by version. */
  lemma {:induction false} HistoryIsExact(ws: seq<Write>)
    ensures RowsNamed(AfterAll(ws)) && Logged(AfterAll(ws))
  {
    hide Logged, Written, Extends;
    if ws == [] {
      NothingIsLogged();
    } else {
      HistoryIsExact(ws[..|ws| - 1]);
      WriteIsLogged(AfterAll(ws[..|ws| - 1]), ws[|ws| - 1]);
    }
  }

  lemma AgesJoin(a: Db, b: Db, c: Db)
    requires Ages(a, b) && Ages(b, c)
    ensures Ages(a, c)
  {
  }

  /** Between any two moments rows keep identity and creation time, and a changed row has a later version. */
  lemma {:induction false} RowsOnlyAge(ws: seq<Write>, i: nat)
    requires i <= |ws|
    ensures Ages(AfterAll(ws[..i]), AfterAll(ws)) && Extends(AfterAll(ws[..i]), AfterAll(ws))
  {
    hide Logged, Written, Ages, Extends;
    if i == |ws| {
      assert ws[..i] == ws;
      ExtendsReflexive(AfterAll(ws));
      AgesItself(AfterAll(ws));
    } else {
      var front := ws[..|ws| - 1];
      RowsOnlyAge(front, i);
      assert front[..i] == ws[..i];
      HistoryIsExact(front);
      WriteIsLogged(AfterAll(front), ws[|ws| - 1]);
      WriteAges(AfterAll(front), ws[|ws| - 1]);
      AgesJoin(AfterAll(ws[..i]), AfterAll(front), AfterAll(ws));
      ExtendsTransitive(AfterAll(ws[..i]), AfterAll(front), AfterAll(ws));
    }
  }

  lemma AgesItself(db: Db)
    ensures Ages(db, db)
  {
  }
}
