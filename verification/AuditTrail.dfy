/**
 The append-only logs written by the triggers: replaying them gives back every
 state the store has been in.
 */
module AuditTrail {
  import opened Wrappers
  import opened Dimensions
  import opened MasterCodes
  import opened Triggers
  import opened MasterData

  // ------------------------------------------------------- MasterCode history

  function EntriesOf(log: seq<CodeEntry>, id: Id): seq<CodeEntry> {
    if log == [] then []
    else EntriesOf(log[..|log| - 1], id) + if log[|log| - 1].id == id then [log[|log| - 1]] else []
  }

  lemma {:induction false} EntriesOfConcat(a: seq<CodeEntry>, b: seq<CodeEntry>, id: Id)
    ensures EntriesOf(a + b, id) == EntriesOf(a, id) + EntriesOf(b, id)
  {
    if b == [] {
      assert a + b == a;
    } else {
      EntriesOfConcat(a, b[..|b| - 1], id);
      assert (a + b)[..|a + b| - 1] == a + b[..|b| - 1];
    }
  }

  lemma {:induction false} NoEntries(log: seq<CodeEntry>, id: Id)
    requires forall i :: 0 <= i < |log| ==> log[i].id != id
    ensures EntriesOf(log, id) == []
  {
    if log != [] { NoEntries(log[..|log| - 1], id); }
  }

  /** One entry per version from 1, each starting where the previous one ended. */
  predicate Chained(es: seq<CodeEntry>) { forall i :: 0 <= i < |es| ==> Link(es, i) }

  /** The operation an entry names is what happened between its states. */
  predicate Explains(e: CodeEntry) {
    match e.operation
    case CreateCode => e.prior.None? && !e.next.deleted
    case Recompose =>
      e.prior.Some? && e.next.refs == e.prior.value.refs && e.next.code != e.prior.value.code
      && e.next.deleted == e.prior.value.deleted
    case ReferenceUpdate =>
      e.prior.Some? && e.next.refs != e.prior.value.refs && e.next.code != e.prior.value.code
      && !e.prior.value.deleted && !e.next.deleted
    case DeleteCode => e.prior.Some? && !e.prior.value.deleted && e.next == e.prior.value.(deleted := true)
    case RestoreCode =>
      e.prior.Some? && e.prior.value.deleted && !e.next.deleted && e.next.refs == e.prior.value.refs
  }

  predicate Link(es: seq<CodeEntry>, i: nat)
    requires i < |es|
  {
    es[i].version == i + 1 && Explains(es[i])
    && (i == 0 ==> es[i].operation == CreateCode && es[i].prior.None?)
    && (i > 0 ==> es[i].operation != CreateCode && es[i].prior == Some(es[i - 1].next))
  }

  predicate Tells(es: seq<CodeEntry>, r: Row) {
    r.version >= 1 && |es| == r.version && Chained(es)
    && es[r.version - 1].next == SnapshotOf(r) && es[r.version - 1].changedAt == r.updatedAt
  }

  /** No MasterCode version is logged twice: the log's unique constraint. */
  predicate KeysOnce(log: seq<CodeEntry>) {
    forall m, n :: 0 <= m < n < |log| && log[m].id == log[n].id ==> log[m].version != log[n].version
  }

  predicate CodeEntriesKnown(db: Db) {
    forall i :: 0 <= i < |db.codeLog| ==>
      db.codeLog[i].id in db.rows && db.codeLog[i].version <= db.rows[db.codeLog[i].id].version
  }

  predicate CodeLogOk(db: Db) {
    CodeEntriesKnown(db) && KeysOnce(db.codeLog)
    && forall id :: id in db.rows ==> Tells(EntriesOf(db.codeLog, id), db.rows[id])
  }

  lemma EntryAppended(db: Db, next: Db, id: Id, e: CodeEntry)
    requires CodeLogOk(db) && next.codeLog == db.codeLog + [e] && e.id == id
    requires id in next.rows && next.rows == db.rows[id := next.rows[id]]
    requires Tells(EntriesOf(db.codeLog, id) + [e], next.rows[id])
    requires e.version == next.rows[id].version && (id in db.rows ==> db.rows[id].version < e.version)
    ensures CodeLogOk(next)
  {
    hide Tells, EntriesOf;
    forall i | i in next.rows ensures Tells(EntriesOf(next.codeLog, i), next.rows[i]) {
      EntriesOfLonger(db.codeLog, e, i);
    }
  }

  lemma EntriesOfLonger(log: seq<CodeEntry>, e: CodeEntry, id: Id)
    ensures EntriesOf(log + [e], id) == if e.id == id then EntriesOf(log, id) + [e] else EntriesOf(log, id)
  {
    var longer := log + [e];
    assert longer[..|longer| - 1] == log && longer[|longer| - 1] == e;
  }

  lemma InsertRowLogged(db: Db, ctx: Context, r: Row)
    requires CodeLogOk(db) && InsertRow(db, ctx, r).Ok?
    ensures CodeLogOk(InsertRow(db, ctx, r).value)
  {
    hide RowChecks, RowCollides, CodeEntryChecks;
    NoEntries(db.codeLog, r.id);
    EntryAppended(db, InsertRow(db, ctx, r).value, r.id, InsertEntry(r));
  }

  lemma ChainExtends(es: seq<CodeEntry>, e: CodeEntry)
    requires Chained(es) && es != [] && e.version == |es| + 1
    requires e.operation != CreateCode && e.prior == Some(es[|es| - 1].next) && Explains(e)
    ensures Chained(es + [e])
  {
    var all := es + [e];
    forall i | 0 <= i < |all| ensures Link(all, i) {
      if i < |es| { assert Link(es, i); }
    }
  }

  lemma WriteRowLogged(db: Db, ctx: Context, id: Id, r: Row)
    requires CodeLogOk(db) && id in db.rows && db.rows[id].id == id && WriteRow(db, ctx, id, r).Ok?
    ensures CodeLogOk(WriteRow(db, ctx, id, r).value)
  {
    var e := UpdateEntry(ctx.masterCode.value, db.rows[id], r);
    var es := EntriesOf(db.codeLog, id);
    assert Tells(es, db.rows[id]);
    ChainExtends(es, e);
    EntryAppended(db, WriteRow(db, ctx, id, r).value, id, e);
  }

  // -------------------------------------------------------- Dimension replay

  datatype DimensionState = DimensionState(code: Option<string>, value: Option<Value>, deleted: bool)

  const UNKNOWN := DimensionState(None, None, false)

  function StateOf(d: Dimension): DimensionState { DimensionState(Some(d.code), Some(d.value), d.IsDeleted()) }

  function Apply(s: DimensionState, f: Field): DimensionState {
    match f
    case CodeField(_, c) => s.(code := Some(c))
    case ValueField(_, v) => s.(value := Some(v))
    case DeletedField(_, b) => s.(deleted := b)
  }

  /** The state at a version, rebuilt from the entries up to that version. */
  function Replay(log: seq<DimensionEntry>, key: Key, version: int): DimensionState {
    if log == [] then UNKNOWN
    else
      var e := log[|log| - 1];
      var s := Replay(log[..|log| - 1], key, version);
      if e.key == key && e.version <= version then Apply(s, e.field) else s
  }

  lemma ReplayLast(log: seq<DimensionEntry>, e: DimensionEntry, key: Key, version: int)
    ensures Replay(log + [e], key, version)
         == if e.key == key && e.version <= version then Apply(Replay(log, key, version), e.field)
            else Replay(log, key, version)
  {
    assert (log + [e])[..|log|] == log;
  }

  /** Entries about other rows or later versions change nothing. */
  lemma {:induction false} ReplayIgnores(log: seq<DimensionEntry>, es: seq<DimensionEntry>, key: Key, version: int)
    requires forall i :: 0 <= i < |es| ==> es[i].key != key || es[i].version > version
    ensures Replay(log + es, key, version) == Replay(log, key, version)
  {
    if es == [] {
      assert log + es == log;
    } else {
      var front, e := es[..|es| - 1], es[|es| - 1];
      ReplayIgnores(log, front, key, version);
      assert log + es == (log + front) + [e];
      ReplayLast(log + front, e, key, version);
    }
  }

  /** A bound beyond every entry is no bound. */
  lemma {:induction false} ReplayBound(log: seq<DimensionEntry>, key: Key, v: int, w: int)
    requires v <= w
    requires forall i :: 0 <= i < |log| && log[i].key == key ==> log[i].version <= v
    ensures Replay(log, key, v) == Replay(log, key, w)
  {
    if log != [] { ReplayBound(log[..|log| - 1], key, v, w); }
  }

  predicate EntriesKnown(db: Db) {
    forall i :: 0 <= i < |db.dimLog| ==>
      db.dimLog[i].key in db.dims && db.dimLog[i].version <= db.dims[db.dimLog[i].key].version
  }

  predicate DimLogOk(db: Db) {
    EntriesKnown(db)
    && forall k :: k in db.dims ==> Replay(db.dimLog, k, db.dims[k].version) == StateOf(db.dims[k])
  }

  /** Appending the entries of one row, when they lead to that row's new state. */
  lemma EntriesAppended(db: Db, next: Db, key: Key, d: Dimension, es: seq<DimensionEntry>)
    requires DimLogOk(db) && next.dimLog == db.dimLog + es && next.dims == db.dims[key := d]
    requires key in db.dims ==> db.dims[key].version <= d.version
    requires forall i :: 0 <= i < |es| ==> es[i].key == key && es[i].version <= d.version
    requires Replay(next.dimLog, key, d.version) == StateOf(d)
    ensures DimLogOk(next)
  {
    forall k | k in next.dims ensures Replay(next.dimLog, k, next.dims[k].version) == StateOf(next.dims[k]) {
      if k != key { ReplayIgnores(db.dimLog, es, k, db.dims[k].version); }
    }
  }

  // ------------------------------------------------ Dimension log, entry by entry

  function KindOf(f: Field): nat {
    match f case CodeField(_, _) => 0 case ValueField(_, _) => 1 case DeletedField(_, _) => 2
  }

  /** The entry's old value is what the state had. */
  predicate OldIs(f: Field, s: DimensionState) {
    match f
    case CodeField(a, _) => a == s.code
    case ValueField(a, _) => a == s.value
    case DeletedField(a, _) => a == s.deleted
  }

  /** The entry starts from the state replayed at the version before its own. */
  predicate Told(log: seq<DimensionEntry>, n: nat)
    requires n < |log|
  {
    log[n].version >= 1 && OldIs(log[n].field, Replay(log, log[n].key, log[n].version - 1))
  }

  predicate Logs(log: seq<DimensionEntry>, key: Key, version: int) {
    exists n :: 0 <= n < |log| && log[n].key == key && log[n].version == version
  }

  predicate FieldsOnce(log: seq<DimensionEntry>) {
    forall m, n :: (0 <= m < n < |log| && log[m].key == log[n].key && log[m].version == log[n].version)
      ==> KindOf(log[m].field) != KindOf(log[n].field)
  }

  /** Entries of the current version carry the time of the last update. */
  predicate Stamped(db: Db) {
    forall n :: 0 <= n < |db.dimLog| && db.dimLog[n].key in db.dims
      ==> (db.dimLog[n].version == db.dims[db.dimLog[n].key].version
           ==> db.dimLog[n].changedAt == db.dims[db.dimLog[n].key].updatedAt)
  }

  /**
   Every version is logged, no field twice in one, each entry starts where the version before
   ended, names what happened and carries its time.
   */
  predicate DimChainOk(db: Db) {
    && (forall n :: 0 <= n < |db.dimLog| ==> Told(db.dimLog, n))
    && FieldsOnce(db.dimLog) && AllEntryChecks(db.dimLog) && Stamped(db)
    && (forall k :: k in db.dims ==> db.dims[k].version >= 1)
    && (forall k, w :: k in db.dims && 1 <= w <= db.dims[k].version ==> Logs(db.dimLog, k, w))
  }

  /** What the entries of one write must satisfy to continue the chain. */
  predicate Continues(log: seq<DimensionEntry>, key: Key, version: int, es: seq<DimensionEntry>) {
    && es != [] && version >= 1 && FieldsOnce(es) && AllEntryChecks(es)
    && forall i :: 0 <= i < |es| ==>
         es[i].key == key && es[i].version == version && OldIs(es[i].field, Replay(log, key, version - 1))
  }

  lemma ChainAppended(db: Db, next: Db, key: Key, d: Dimension, es: seq<DimensionEntry>)
    requires EntriesKnown(db) && DimChainOk(db)
    requires next.dimLog == db.dimLog + es && next.dims == db.dims[key := d]
    requires d.version == if key in db.dims then db.dims[key].version + 1 else 1
    requires Continues(db.dimLog, key, d.version, es) && forall e :: e in es ==> e.changedAt == d.updatedAt
    ensures DimChainOk(next)
  {
    hide OldIs, KindOf, EntryChecks;
    var log, all := db.dimLog, next.dimLog;
    forall n | 0 <= n < |all| ensures Told(all, n) {
      var e := all[n];
      if n < |log| { assert e == log[n] && Told(log, n); } else { assert e == es[n - |log|]; }
      ReplayIgnores(log, es, e.key, e.version - 1);
    }
    assert FieldsOnce(all) by { FieldsStayOnce(db, key, d.version, es); }
    StampsStay(db, next, key, d, es);
    forall k, w | k in next.dims && 1 <= w <= next.dims[k].version ensures Logs(all, k, w) {
      if k == key && w == d.version {
        assert all[|log|] == es[0];
      } else {
        assert Logs(log, k, w);
        var n :| 0 <= n < |log| && log[n].key == k && log[n].version == w;
        assert all[n] == log[n];
      }
    }
  }

  lemma StampsStay(db: Db, next: Db, key: Key, d: Dimension, es: seq<DimensionEntry>)
    requires EntriesKnown(db) && Stamped(db) && next.dimLog == db.dimLog + es && next.dims == db.dims[key := d]
    requires key in db.dims ==> db.dims[key].version < d.version
    requires forall i :: 0 <= i < |es| ==> es[i].key == key
    requires forall e :: e in es ==> e.changedAt == d.updatedAt
    ensures Stamped(next)
  {
    forall n | 0 <= n < |next.dimLog| && next.dimLog[n].key in next.dims
      && next.dimLog[n].version == next.dims[next.dimLog[n].key].version
      ensures next.dimLog[n].changedAt == next.dims[next.dimLog[n].key].updatedAt
    {
      if n < |db.dimLog| {
        assert next.dimLog[n] == db.dimLog[n];
      } else {
        assert next.dimLog[n] == es[n - |db.dimLog|] && es[n - |db.dimLog|] in es;
      }
    }
  }

  lemma FieldsStayOnce(db: Db, key: Key, version: int, es: seq<DimensionEntry>)
    requires EntriesKnown(db) && FieldsOnce(db.dimLog) && FieldsOnce(es)
    requires forall i :: 0 <= i < |es| ==> es[i].key == key && es[i].version == version
    requires key in db.dims ==> db.dims[key].version < version
    ensures FieldsOnce(db.dimLog + es)
  {
    hide KindOf;
  }

  lemma InsertDimensionLogged(db: Db, ctx: Context, key: Key, d: Dimension)
    requires DimLogOk(db) && InsertDimension(db, ctx, key, d).Ok?
    ensures DimLogOk(InsertDimension(db, ctx, key, d).value)
    ensures DimChainOk(db) ==> DimChainOk(InsertDimension(db, ctx, key, d).value)
  {
    var next := InsertDimension(db, ctx, key, d).value;
    var es := InsertEntries(key, d);
    assert next.dimLog == db.dimLog + es && next.dims == db.dims[key := d] && key !in db.dims && d.version == 1;
    assert d.deletedAt.None?;
    hide InsertDimension;
    UnknownUntilInserted(db, key, 0);
    UnknownUntilInserted(db, key, 1);
    InsertReplayed(db.dimLog, key, d);
    EntriesAppended(db, next, key, d, es);
    if DimChainOk(db) { ChainAppended(db, next, key, d, es); }
  }

  lemma UnknownUntilInserted(db: Db, key: Key, version: int)
    requires EntriesKnown(db) && key !in db.dims
    ensures Replay(db.dimLog, key, version) == UNKNOWN
  {
    ReplayIgnores([], db.dimLog, key, version);
    assert [] + db.dimLog == db.dimLog;
  }

  lemma InsertReplayed(log: seq<DimensionEntry>, key: Key, d: Dimension)
    requires d.version == 1 && Replay(log, key, 0) == Replay(log, key, 1) == UNKNOWN && d.deletedAt.None?
    requires AllEntryChecks(InsertEntries(key, d))
    ensures Replay(log + InsertEntries(key, d), key, d.version) == StateOf(d)
    ensures Continues(log, key, d.version, InsertEntries(key, d))
  {
    hide EntryChecks, AllEntryChecks;
    var es := InsertEntries(key, d);
    assert log + es == (log + [es[0]]) + [es[1]];
    ReplayLast(log, es[0], key, d.version);
    ReplayLast(log + [es[0]], es[1], key, d.version);
  }

  /** Replaying an optional single entry. */
  lemma ReplayOptional(log: seq<DimensionEntry>, es: seq<DimensionEntry>, key: Key, version: int)
    requires |es| <= 1 && forall e :: e in es ==> e.key == key && e.version == version
    ensures Replay(log + es, key, version)
         == if es == [] then Replay(log, key, version) else Apply(Replay(log, key, version), es[0].field)
  {
    if es == [] {
      assert log + es == log;
    } else {
      assert es == [es[0]] && es[0] in es;
      ReplayLast(log, es[0], key, version);
    }
  }

  lemma UpdateReplayed(log: seq<DimensionEntry>, key: Key, prior: Dimension, next: Dimension)
    requires Replay(log, key, next.version) == StateOf(prior)
    requires SameValue(prior.value, next.value) ==> prior.value == next.value
    ensures Replay(log + UpdateEntries(key, prior, next), key, next.version) == StateOf(next)
  {
    var a, b, c := LifecycleEntries(key, prior, next), CodeEntries(key, prior, next), ValueEntries(key, prior, next);
    assert log + UpdateEntries(key, prior, next) == ((log + a) + b) + c;
    ReplayOptional(log, a, key, next.version);
    ReplayOptional(log + a, b, key, next.version);
    ReplayOptional((log + a) + b, c, key, next.version);
  }

  /** The entries of an admitted update that changed anything continue the chain. */
  lemma UpdateContinues(log: seq<DimensionEntry>, key: Key, prior: Dimension, next: Dimension)
    requires Replay(log, key, prior.version) == StateOf(prior)
    requires next.version == prior.version + 1 && prior.version >= 0
    requires UpdateEntries(key, prior, next) != [] && AllEntryChecks(UpdateEntries(key, prior, next))
    ensures Continues(log, key, next.version, UpdateEntries(key, prior, next))
  {
    hide EntryChecks, AllEntryChecks;
  }

  /** What a written update says about the version: one more when anything was logged, else the same. */
  lemma UpdateCounts(ctx: Context, key: Key, prior: Dimension, next: Dimension, inUse: bool)
    requires DimensionUpdateAllowed(ctx, prior, next, inUse)
    ensures next.version == if UpdateEntries(key, prior, next) == [] then prior.version else prior.version + 1
    ensures SameValue(prior.value, next.value) ==> prior.value == next.value
  {
  }

  /** An update keeps the log exact, at its own version and at every older one, of every Dimension. */
  lemma WriteDimensionLogged(db: Db, ctx: Context, key: Key, d: Dimension)
    requires DimLogOk(db) && key in db.dims && WriteDimension(db, ctx, key, d).Ok?
    ensures var next := WriteDimension(db, ctx, key, d).value;
      && DimLogOk(next)
      && (DimChainOk(db) ==> DimChainOk(next))
      && forall k, w :: k in db.dims && w <= db.dims[k].version ==>
           Replay(next.dimLog, k, w) == Replay(db.dimLog, k, w)
  {
    var prior, next := db.dims[key], WriteDimension(db, ctx, key, d).value;
    var es := UpdateEntries(key, prior, d);
    assert next.dimLog == db.dimLog + es && next.dims == db.dims[key := d] && AllEntryChecks(es)
           && DimensionUpdateAllowed(ctx, prior, d, InUse(db, key)) by {
      hide DimLogOk, DimensionUpdateAllowed, DimensionChecks, UpdateEntries, EntryChecks, CodeTaken, ValueTaken, InUse;
    }
    hide WriteDimension, EntryChecks, AllEntryChecks, DimChainOk, DimLogOk, Replay;
    UpdateCounts(ctx, key, prior, d, InUse(db, key));
    UpdateEntriesNamed(key, prior, d);
    hide UpdateEntries, SameValue, InUse, DimensionUpdateAllowed;
    LoggedSoFar(db, key);
    ReplayBound(db.dimLog, key, prior.version, d.version);
    UpdateReplayed(db.dimLog, key, prior, d);
    EntriesAppended(db, next, key, d, es);
    OlderVersionsStay(db, key, d.version, es);
    if DimChainOk(db) {
      if es == [] {
        UnloggedStays(db, next, ctx, key, d);
      } else {
        UpdateContinues(db.dimLog, key, prior, d);
        ChainAppended(db, next, key, d, es);
      }
    }
  }

  lemma UpdateEntriesNamed(key: Key, prior: Dimension, next: Dimension)
    ensures forall i :: 0 <= i < |UpdateEntries(key, prior, next)| ==>
      UpdateEntries(key, prior, next)[i].key == key && UpdateEntries(key, prior, next)[i].version == next.version
    ensures forall e :: e in UpdateEntries(key, prior, next) ==> e.changedAt == next.updatedAt
  {
  }

  /** An update that logs nothing changes nothing. */
  lemma UnloggedStays(db: Db, next: Db, ctx: Context, key: Key, d: Dimension)
    requires DimChainOk(db) && key in db.dims && DimensionUpdateAllowed(ctx, db.dims[key], d, InUse(db, key))
    requires UpdateEntries(key, db.dims[key], d) == [] && next.dims == db.dims[key := d]
    requires next.dimLog == db.dimLog + []
    ensures DimChainOk(next)
  {
    assert d == db.dims[key] by { hide DimChainOk, InUse; }
    assert next.dims == db.dims && next.dimLog == db.dimLog;
    hide UpdateEntries, DimensionUpdateAllowed, InUse, Told, FieldsOnce, AllEntryChecks, Logs;
  }

  lemma LoggedSoFar(db: Db, key: Key)
    requires DimLogOk(db) && key in db.dims
    ensures EntriesKnown(db) && Replay(db.dimLog, key, db.dims[key].version) == StateOf(db.dims[key])
  {
  }

  lemma OlderVersionsStay(db: Db, key: Key, version: int, es: seq<DimensionEntry>)
    requires key in db.dims && (es != [] ==> version > db.dims[key].version)
    requires forall i :: 0 <= i < |es| ==> es[i].key == key && es[i].version == version
    ensures forall k, w :: k in db.dims && w <= db.dims[k].version ==>
      Replay(db.dimLog + es, k, w) == Replay(db.dimLog, k, w)
  {
    forall k, w | k in db.dims && w <= db.dims[k].version
      ensures Replay(db.dimLog + es, k, w) == Replay(db.dimLog, k, w)
    {
      ReplayIgnores(db.dimLog, es, k, w);
    }
  }
}
