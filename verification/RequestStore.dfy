/** The request table as it runs: one locked row is changed in place and flushed, or nothing is. */
module RequestStore {
  import opened Wrappers
  import opened Dimensions
  import opened Proposals
  import opened ChangeRequests
  import opened ReviewRuns

  /** The write trigger, column by column. */
  method BeforeUpdate(before: Row, after: Row) returns (allowed: bool)
    ensures allowed <==> UpdateAllowed(before, after)
  {
    if before.status != Pending || after.status == Pending { return false; }
    if after.id != before.id { return false; }
    if after.originalOperation != before.originalOperation { return false; }
    if after.originalTarget != before.originalTarget { return false; }
    if !SamePayload(after.originalPayload, before.originalPayload) { return false; }
    if after.originalEtag != before.originalEtag { return false; }
    if after.requester != before.requester || after.reason != before.reason { return false; }
    return after.createdAt == before.createdAt;
  }

  class Store {
    var rows: Rows

    constructor ()
      ensures rows == map[]
    {
      rows := map[];
    }

    method Flush(id: Id, next: Row) returns (failure: Option<ReviewError>)
      requires id in rows
      modifies this
      ensures var out := UpdateRow(old(rows), id, next);
        if out.Ok? then failure == None && rows == out.value else failure == Some(out.error) && rows == old(rows)
    {
      var allowed := BeforeUpdate(rows[id], next);
      if !allowed || !Checks(next) || !UnusedChangeSet(rows, id, next.changeSet) { return Some(ConstraintViolated); }
      rows := rows[id := next];
      return None;
    }

    method SubmitRequest(c: Command, isUuid: string -> bool) returns (failure: Option<ReviewError>)
      requires c.Submit?
      modifies this
      ensures var out := Exec(old(rows), c, isUuid);
        if out.Ok? then failure == None && rows == out.value else failure == Some(out.error) && rows == old(rows)
    {
      hide Checks, Validate, ParseReason;
      if c.proposal.operation == Restore || !c.proposal.WellFormed() { return Some(InvalidPayload); }
      var validated := ValidateProposal(c.proposal, isUuid);
      if validated.Err? { return Some(validated.error); }
      var reason := ParseReason(c.reason);
      if reason.Err? { return Some(reason.error); }
      var row := NewRow(c.id, c.proposal, c.requester, reason.value, c.clock);
      if c.id in rows || !InsertAllowed(row) || !Checks(row) { return Some(ConstraintViolated); }
      rows := rows[c.id := row];
      return None;
    }

    method ApproveRequest(c: Command, isUuid: string -> bool) returns (failure: Option<ReviewError>)
      requires c.Approve?
      modifies this
      ensures var out := Exec(old(rows), c, isUuid);
        if out.Ok? then failure == None && rows == out.value else failure == Some(out.error) && rows == old(rows)
    {
      hide Checks, Validate, FromRow, Request.Approve, Request.Classify, IsNote, UpdateRow, SetReview,
        Proposal.WellFormed,
        IsVersion7;
      if !NoteOk(c.note) { return Some(InvalidReview); }
      var locked := Lock(rows, c.id);
      if locked.Err? { return Some(locked.error); }
      var request := locked.value;
      var proposal := if c.amended.None? then request.original else c.amended.value;
      var outcome := request.Classify(proposal, c.note);
      if outcome.Err? { return Some(outcome.error); }
      if !proposal.WellFormed() { return Some(InvalidPayload); }
      var validated := ValidateProposal(proposal, isUuid);
      if validated.Err? { return Some(validated.error); }
      if !IsVersion7(c.change) { return Some(InvalidReview); }
      if c.applied.None? { return Some(NotApplied); }
      var at := Later(Later(c.clock, request.createdAt), c.applied.value);
      var reviewed := request.Approve(proposal, c.judge, at, c.change, c.note);
      if reviewed.Err? { return Some(reviewed.error); }
      failure := Flush(c.id, SetReview(rows[c.id], reviewed.value));
    }

    method RejectRequest(c: Command, isUuid: string -> bool) returns (failure: Option<ReviewError>)
      requires c.Reject?
      modifies this
      ensures var out := Exec(old(rows), c, isUuid);
        if out.Ok? then failure == None && rows == out.value else failure == Some(out.error) && rows == old(rows)
    {
      hide Checks, FromRow, Request.Reject, IsNote, UpdateRow, SetReview;
      if !IsNote(c.explanation) { return Some(InvalidReview); }
      var locked := Lock(rows, c.id);
      if locked.Err? { return Some(locked.error); }
      var request := locked.value;
      var reviewed := request.Reject(c.judge, Later(c.clock, request.createdAt), c.explanation);
      if reviewed.Err? { return Some(reviewed.error); }
      failure := Flush(c.id, SetReview(rows[c.id], reviewed.value));
    }
  }
}
