/** Submissions and reviews over whole runs: one outcome a request, originals never change. */
module ReviewRuns {
  import opened Wrappers
  import opened Dimensions
  import opened Proposals
  import opened ChangeRequests

  type Rows = map<Id, Row>

  datatype Command =
    | Submit(id: Id, proposal: Proposal, requester: Id, reason: Option<string>, clock: Time)
    // `applied` is the time of the data change made in the same transaction, None if that failed.
    | Approve(id: Id, amended: Option<Proposal>, judge: Id, change: Uuid, note: Option<string>,
              applied: Option<Time>, clock: Time)
    | Reject(id: Id, judge: Id, explanation: string, clock: Time)

  function Later(a: Time, b: Time): Time { if a < b then b else a }

  /** The unique constraint on applied change sets. */
  predicate UnusedChangeSet(rows: Rows, id: Id, change: Option<Uuid>) {
    change.Some? ==> forall k :: k in rows && k != id ==> rows[k].changeSet != change
  }

  /** An update as the database sees it: trigger, constraints, uniqueness. */
  function UpdateRow(rows: Rows, id: Id, next: Row): Result<Rows, ReviewError>
    requires id in rows
  {
    if UpdateAllowed(rows[id], next) && Checks(next) && UnusedChangeSet(rows, id, next.changeSet)
    then Ok(rows[id := next]) else Err(ConstraintViolated)
  }

  /** The request locked for review. */
  function Lock(rows: Rows, id: Id): Result<Request, ReviewError> {
    if id !in rows then Err(NotFound)
    else
      var r :- FromRow(rows[id]);
      if r.status == Pending then Ok(r) else Err(AlreadyReviewed)
  }

  /** Classifies and validates what is to be applied, and draws its change set. */
  function Prepare(r: Request, amended: Option<Proposal>, change: Uuid, note: Option<string>, isUuid: string -> bool)
    : Result<Proposal, ReviewError>
  {
    var p := if amended.None? then r.original else amended.value;
    var _ :- r.Classify(p, note);
    if !p.WellFormed() then Err(InvalidPayload)
    else
      var _ :- Validate(p, isUuid);
      if IsVersion7(change) then Ok(p) else Err(InvalidReview)
  }

  function Exec(rows: Rows, c: Command, isUuid: string -> bool): Result<Rows, ReviewError> {
    match c
    case Submit(id, p, requester, raw, clock) =>
      if p.operation == Restore || !p.WellFormed() then Err(InvalidPayload)
      else
        var _ :- Validate(p, isUuid);
        var reason :- ParseReason(raw);
        var row := NewRow(id, p, requester, reason, clock);
        if id !in rows && InsertAllowed(row) && Checks(row) then Ok(rows[id := row]) else Err(ConstraintViolated)
    case Approve(id, amended, judge, change, note, applied, clock) =>
      if !NoteOk(note) then Err(InvalidReview)
      else
        var r :- Lock(rows, id);
        var p :- Prepare(r, amended, change, note, isUuid);
        if applied.None? then Err(NotApplied)
        else
          var at := Later(Later(clock, r.createdAt), applied.value);
          var reviewed :- r.Approve(p, judge, at, change, note);
          UpdateRow(rows, id, SetReview(rows[id], reviewed))
    case Reject(id, judge, note, clock) =>
      if !IsNote(note) then Err(InvalidReview)
      else
        var r :- Lock(rows, id);
        var reviewed :- r.Reject(judge, Later(clock, r.createdAt), note);
        UpdateRow(rows, id, SetReview(rows[id], reviewed))
  }

  function Next(rows: Rows, c: Command, isUuid: string -> bool): Rows {
    var r := Exec(rows, c, isUuid);
    if r.Ok? then r.value else rows
  }

  function After(rows: Rows, run: seq<Command>, isUuid: string -> bool): Rows {
    if run == [] then rows else Next(After(rows, run[..|run| - 1], isUuid), run[|run| - 1], isUuid)
  }

  /** Every stored row is sound and its original proposal was validated. */
  predicate RowOk(id: Id, row: Row, isUuid: string -> bool) {
    row.id == id && Sound(row) && Original(row).WellFormed() && Validate(Original(row), isUuid).Ok?
  }

  predicate RowsOk(rows: Rows, isUuid: string -> bool) { forall id :: id in rows ==> RowOk(id, rows[id], isUuid) }

  // ------------------------------------------------------------------ one review

  predicate OnlyRow(before: Rows, after: Rows, id: Id) {
    && after.Keys == before.Keys + {id}
    && forall k :: k in before && k != id ==> after[k] == before[k]
  }

  /** What a caller can tell before the call about whether an approval is allowed. */
  predicate MayApprove(r: Request, p: Proposal, note: Option<string>) {
    && ((p.operation == r.original.operation && p.target == r.original.target)
        || (r.original.operation == Create && p.operation == Restore))
    && (p != r.original ==> note.Some?)
  }

  function Chosen(r: Request, amended: Option<Proposal>): Proposal {
    if amended.None? then r.original else amended.value
  }

  lemma ApproveIsDefined(r: Request, p: Proposal, judge: Id, at: Time, change: Uuid, note: Option<string>)
    requires r.status == Pending && r.original.operation != Restore && r.createdAt <= at && IsVersion7(change)
    ensures r.Approve(p, judge, at, change, note).Ok? <==> MayApprove(r, p, note)
    ensures r.Classify(p, note).Ok? <==> MayApprove(r, p, note)
  {
  }

  /**
   On a store of sound rows an approval goes through exactly when the request is pending,
   the proposal allowed and valid, the data change made, and the change set new; no
   constraint and no trigger ever stands in its way otherwise.
   */
  lemma ApprovalGoesThroughExactlyWhen(
      rows: Rows, id: Id, amended: Option<Proposal>, judge: Id, change: Uuid, note: Option<string>,
      applied: Option<Time>, clock: Time, isUuid: string -> bool)
    requires RowsOk(rows, isUuid) && NoteOk(note) && id in rows && rows[id].status == Pending
    ensures var p := Chosen(FromRow(rows[id]).value, amended);
      var out := Exec(rows, Approve(id, amended, judge, change, note, applied, clock), isUuid);
      && (out.Ok? <==> MayApprove(FromRow(rows[id]).value, p, note) && p.WellFormed() && Validate(p, isUuid).Ok?
                       && IsVersion7(change) && applied.Some? && UnusedChangeSet(rows, id, Some(change)))
      && (out.Ok? ==> OnlyRow(rows, out.value, id)
                      && out.value[id] == ApprovedRow(rows[id], p, judge, note, change, applied, clock))
  {
    hide Sound, Validate, Request.Approve, Request.Classify, IsVersion7, Checks, UpdateAllowed, MayApprove, FromRow,
      UnusedChangeSet, Proposal.WellFormed, IsNote;
    var row := rows[id];
    assert RowOk(id, row, isUuid);
    PendingIsRead(row);
    SoundParts(row);
    var r := FromRow(row).value;
    var p := Chosen(r, amended);
    if applied.Some? && IsVersion7(change) {
      var at := Later(Later(clock, r.createdAt), applied.value);
      ApproveIsDefined(r, p, judge, at, change, note);
      if p.WellFormed() && Validate(p, isUuid).Ok? && MayApprove(r, p, note) {
        ApprovalIsStored(row, p, judge, at, change, note, isUuid);
        ApprovedFields(r, p, judge, at, change, note);
        ApprovedColumns(r, p, judge, at, change, note);
        var a := r.Approve(p, judge, at, change, note).value;
        SoundParts(SetReview(row, a));
      }
    }
  }

  /** The greatest of the given times. */
  predicate LatestOf(t: Time, times: seq<Time>) { t in times && forall x :: x in times ==> x <= t }

  lemma LaterIsLatest(a: Time, b: Time, c: Time)
    ensures LatestOf(Later(Later(a, b), c), [a, b, c]) && LatestOf(Later(a, b), [a, b])
  {
  }

  /** The row after an approval: submission and payload kept, the reviewer's entries, the applied proposal. */
  function ApprovedRow(
    row: Row, p: Proposal, judge: Id, note: Option<string>, change: Uuid, applied: Option<Time>, clock: Time): Row
    requires applied.Some?
  {
    Row(row.id, row.originalOperation, row.originalTarget, row.originalPayload, row.originalEtag,
        row.requester, row.reason, row.createdAt,
        if p == Original(row) then Status.Approved else ModifiedAndApproved,
        Some(p.operation), p.target, p.payload, p.etag,
        Some(judge), Some(Later(Later(clock, row.createdAt), applied.value)), note, Some(change))
  }

  lemma SoundParts(row: Row)
    ensures Sound(row) ==> Checks(row) && FromRow(row).Ok?
  {
  }

  lemma ApprovedColumns(r: Request, p: Proposal, judge: Id, at: Time, change: Uuid, note: Option<string>)
    requires r.Approve(p, judge, at, change, note).Ok?
    ensures var a := r.Approve(p, judge, at, change, note).value;
      a.reviewer == Some(judge) && a.changeSet == Some(change) && a.reviewedAt == Some(at)
      && a.status == (if p == r.original then Status.Approved else ModifiedAndApproved)
  {
  }

  /** A rejection with a proper explanation always goes through on a pending request. */
  lemma RejectionGoesThrough(rows: Rows, id: Id, judge: Id, note: string, clock: Time, isUuid: string -> bool)
    requires RowsOk(rows, isUuid) && IsNote(note) && id in rows && rows[id].status == Pending
    ensures var out := Exec(rows, Reject(id, judge, note, clock), isUuid);
      && out.Ok? && OnlyRow(rows, out.value, id)
      && out.value[id] == rows[id].(status := Rejected, reviewer := Some(judge), message := Some(note),
                                    reviewedAt := Some(Later(clock, rows[id].createdAt)))
      && NothingApproved(out.value[id])
  {
    hide Sound, Validate, Checks, UpdateAllowed, FromRow, Proposal.WellFormed, IsNote;
    var row := rows[id];
    assert RowOk(id, row, isUuid);
    PendingIsRead(row);
    SoundParts(row);
    PendingHasNoApproval(row);
    RejectionIsStored(row, judge, Later(clock, row.createdAt), note);
    SoundParts(SetReview(row, FromRow(row).value.Reject(judge, Later(clock, row.createdAt), note).value));
  }

  lemma PendingHasNoApproval(row: Row)
    requires Checks(row) && row.status == Pending
    ensures NothingApproved(row)
  {
  }

  /** A submission goes through exactly when it is well formed, no restoration, valid, and its reason proper. */
  lemma SubmissionGoesThroughExactlyWhen(
      rows: Rows, id: Id, p: Proposal, requester: Id, raw: Option<string>, clock: Time, isUuid: string -> bool)
    requires id !in rows
    ensures var out := Exec(rows, Submit(id, p, requester, raw, clock), isUuid);
      && (out.Ok? <==> p.WellFormed() && p.operation != Restore && Validate(p, isUuid).Ok? && ParseReason(raw).Ok?)
      && (out.Ok? ==> out.value == rows[id := Row(id, p.operation, p.target, p.payload, p.etag, requester,
                        ParseReason(raw).value, clock, Pending, None, None, None, None, None, None, None, None)])
  {
    hide Sound, Validate, ParseReason, Checks, Proposal.WellFormed;
    if p.WellFormed() && p.operation != Restore && Validate(p, isUuid).Ok? && ParseReason(raw).Ok? {
      SubmissionIsStored(id, p, requester, raw, clock, isUuid);
      SoundParts(NewRow(id, p, requester, ParseReason(raw).value, clock));
    }
  }

  /** A request that is missing or was reviewed before is reported as such, whatever is attempted. */
  lemma LateReviewsAreRefused(rows: Rows, c: Command, isUuid: string -> bool)
    requires RowsOk(rows, isUuid) && !c.Submit?
    requires (c.Approve? && NoteOk(c.note)) || (c.Reject? && IsNote(c.explanation))
    ensures c.id !in rows ==> Exec(rows, c, isUuid) == Err(NotFound)
    ensures c.id in rows && rows[c.id].status != Pending ==> Exec(rows, c, isUuid) == Err(AlreadyReviewed)
  {
    if c.id in rows {
      assert RowOk(c.id, rows[c.id], isUuid);
      SoundParts(rows[c.id]);
      PendingOf(rows[c.id]);
    }
    hide RowsOk, Sound, FromRow, Prepare, Request.Approve, Request.Reject, UpdateRow, IsNote, Checks;
  }

  // ------------------------------------------------------------------ whole runs

  /** Rows are never lost, originals never change, and a reviewed row never changes at all. */
  predicate Keeps(before: Rows, after: Rows) {
    forall id :: id in before ==> id in after && Settles(before[id], after[id])
  }

  predicate Settles(a: Row, b: Row) {
    && Original(b) == Original(a) && b.id == a.id && b.requester == a.requester && b.reason == a.reason
    && b.createdAt == a.createdAt && (a.status != Pending ==> b == a)
  }

  /** One command writes at most one row, and that row stays sound. */
  lemma CommandKeeps(rows: Rows, c: Command, isUuid: string -> bool)
    requires RowsOk(rows, isUuid)
    ensures RowsOk(Next(rows, c, isUuid), isUuid) && Keeps(rows, Next(rows, c, isUuid))
  {
    hide RowOk, Settles;
    var out := Exec(rows, c, isUuid);
    forall id | id in rows ensures Settles(rows[id], rows[id]) { SettlesItself(rows[id]); }
    if out.Ok? {
      WrittenRowIsOk(rows, c, isUuid);
      hide Exec;
    }
  }

  lemma SettlesItself(row: Row)
    ensures Settles(row, row)
  {
  }

  lemma WrittenRowIsOk(rows: Rows, c: Command, isUuid: string -> bool)
    requires RowsOk(rows, isUuid) && Exec(rows, c, isUuid).Ok?
    ensures var after := Exec(rows, c, isUuid).value;
      OnlyRow(rows, after, c.id) && RowOk(c.id, after[c.id], isUuid)
      && (c.id in rows ==> rows[c.id].status == Pending && Settles(rows[c.id], after[c.id]))
  {
    hide Exec, RowOk, Settles;
    match c
    case Submit(_, _, _, _, _) => SubmitWrites(rows, c, isUuid);
    case Approve(_, _, _, _, _, _, _) => ApproveWrites(rows, c, isUuid);
    case Reject(_, _, _, _) => RejectWrites(rows, c, isUuid);
  }

  lemma SubmitWrites(rows: Rows, c: Command, isUuid: string -> bool)
    requires RowsOk(rows, isUuid) && c.Submit? && Exec(rows, c, isUuid).Ok?
    ensures var after := Exec(rows, c, isUuid).value;
      OnlyRow(rows, after, c.id) && RowOk(c.id, after[c.id], isUuid) && c.id !in rows
  {
    hide Sound, Validate, Checks, ParseReason, Proposal.WellFormed;
    SubmissionIsStored(c.id, c.proposal, c.requester, c.reason, c.clock, isUuid);
  }

  lemma ApproveWrites(rows: Rows, c: Command, isUuid: string -> bool)
    requires RowsOk(rows, isUuid) && c.Approve? && Exec(rows, c, isUuid).Ok?
    ensures var after := Exec(rows, c, isUuid).value;
      OnlyRow(rows, after, c.id) && RowOk(c.id, after[c.id], isUuid)
      && c.id in rows && rows[c.id].status == Pending && Settles(rows[c.id], after[c.id])
  {
    hide Sound, Validate, Checks, UpdateAllowed, FromRow, Proposal.WellFormed, IsNote, Request.Approve,
      Request.Classify;
    var row := rows[c.id];
    assert RowOk(c.id, row, isUuid);
    SoundParts(row);
    PendingOf(row);
    PendingIsRead(row);
    var r := FromRow(row).value;
    var p := Chosen(r, c.amended);
    var at := Later(Later(c.clock, r.createdAt), c.applied.value);
    ApprovalIsStored(row, p, c.judge, at, c.change, c.note, isUuid);
    ApprovedFields(r, p, c.judge, at, c.change, c.note);
  }

  lemma RejectWrites(rows: Rows, c: Command, isUuid: string -> bool)
    requires RowsOk(rows, isUuid) && c.Reject? && Exec(rows, c, isUuid).Ok?
    ensures var after := Exec(rows, c, isUuid).value;
      OnlyRow(rows, after, c.id) && RowOk(c.id, after[c.id], isUuid)
      && c.id in rows && rows[c.id].status == Pending && Settles(rows[c.id], after[c.id])
  {
    hide Sound, Validate, Checks, UpdateAllowed, FromRow, Proposal.WellFormed, IsNote;
    var row := rows[c.id];
    assert RowOk(c.id, row, isUuid);
    SoundParts(row);
    PendingOf(row);
    PendingIsRead(row);
    RejectionIsStored(row, c.judge, Later(c.clock, row.createdAt), c.explanation);
  }

  lemma PendingOf(row: Row)
    requires FromRow(row).Ok?
    ensures FromRow(row).value.status == row.status
  {
  }

  lemma {:induction false} RunsKeep(rows: Rows, run: seq<Command>, isUuid: string -> bool)
    requires RowsOk(rows, isUuid)
    ensures RowsOk(After(rows, run, isUuid), isUuid)
  {
    hide RowsOk, Next, Keeps;
    if run != [] {
      RunsKeep(rows, run[..|run| - 1], isUuid);
      CommandKeeps(After(rows, run[..|run| - 1], isUuid), run[|run| - 1], isUuid);
    }
  }

  lemma KeepsJoins(a: Rows, b: Rows, c: Rows)
    requires Keeps(a, b) && Keeps(b, c)
    ensures Keeps(a, c)
  {
  }

  /**
   Over any run, between any two moments: a request once reviewed keeps that one outcome
   for ever, and what was submitted stays as it was.
   */
  lemma {:induction false} AtMostOneOutcome(rows: Rows, run: seq<Command>, k: nat, isUuid: string -> bool)
    requires RowsOk(rows, isUuid) && k <= |run|
    ensures Keeps(After(rows, run[..k], isUuid), After(rows, run, isUuid))
  {
    hide RowsOk, Next, Keeps;
    if k == |run| {
      assert run[..k] == run;
      KeepsItself(After(rows, run, isUuid));
    } else {
      var init := run[..|run| - 1];
      AtMostOneOutcome(rows, init, k, isUuid);
      assert init[..k] == run[..k];
      RunsKeep(rows, init, isUuid);
      CommandKeeps(After(rows, init, isUuid), run[|run| - 1], isUuid);
      KeepsJoins(After(rows, run[..k], isUuid), After(rows, init, isUuid), After(rows, run, isUuid));
    }
  }

  lemma KeepsItself(rows: Rows)
    ensures Keeps(rows, rows)
  {
  }
}
