/**
 One change request: its review transitions, the row that stores it, and the constraints
 and the trigger that guard the row.
 */
module ChangeRequests {
  import opened Wrappers
  import opened Dimensions
  import opened Proposals
  import StringValues

  // ------------------------------------------------------------------ free text

  predicate IsCc(c: char) { c as int < 0x20 || 0x7f <= c as int <= 0x9f }

  /** One to 500 characters, no outer space, no control character. */
  predicate IsNote(s: string) {
    && 1 <= |s| <= 500 && s[0] != ' ' && s[|s| - 1] != ' '
    && forall i :: 0 <= i < |s| ==> !IsCc(s[i])
  }

  /** An absent note stays absent, and a blank one becomes absent. */
  function ParseReason(raw: Option<string>): Result<Option<string>, ReviewError> {
    if raw.None? then Ok(None)
    else
      var s := StringValues.Strip(raw.value, ' ');
      if s == "" then Ok(None)
      else if |s| > 500 || exists i :: 0 <= i < |s| && IsCc(s[i]) then Err(InvalidReview)
      else Ok(Some(s))
  }

  function ParseMessage(raw: string): Result<string, ReviewError> {
    var reason :- ParseReason(Some(raw));
    if reason.None? then Err(InvalidReview) else Ok(reason.value)
  }

  lemma StripLeavesNoOuterSpace(s: string)
    ensures var t := StringValues.Strip(s, ' '); t != "" ==> t[0] != ' ' && t[|t| - 1] != ' '
  {
    StringValues.StripLeftIsSuffix(s, ' ');
    StringValues.StripRightIsPrefix(StringValues.StripLeft(s, ' '), ' ');
  }

  /** What is kept of a text is a note, and a note is kept as it is. */
  lemma NotesAreFixed(raw: string)
    ensures ParseMessage(raw).Ok? ==> IsNote(ParseMessage(raw).value)
    ensures IsNote(raw) ==> ParseMessage(raw) == Ok(raw) && StringValues.Strip(raw, ' ') == raw
  {
    StripLeavesNoOuterSpace(raw);
  }

  predicate IsBlank(s: string) { forall i :: 0 <= i < |s| ==> s[i] == ' ' }

  /** Stripping takes the outer spaces and nothing else. */
  lemma StripMeans(s: string)
    ensures exists a, b :: s == a + StringValues.Strip(s, ' ') + b && IsBlank(a) && IsBlank(b)
  {
    var left := StringValues.StripLeft(s, ' ');
    var t := StringValues.Strip(s, ' ');
    StrippedLeft(s);
    StrippedRight(left);
    var a, b := s[..|s| - |left|], left[|t|..];
    assert s == a + t + b;
  }

  lemma {:induction false} StrippedLeft(s: string)
    ensures var t := StringValues.StripLeft(s, ' '); t == s[|s| - |t|..] && IsBlank(s[..|s| - |t|])
  {
    StringValues.StripLeftIsSuffix(s, ' ');
    if s != "" && s[0] == ' ' {
      StrippedLeft(s[1..]);
      var t := StringValues.StripLeft(s[1..], ' ');
      assert s[..|s| - |t|] == [s[0]] + s[1..][..|s| - 1 - |t|];
    }
  }

  lemma {:induction false} StrippedRight(s: string)
    ensures var t := StringValues.StripRight(s, ' '); t == s[..|t|] && IsBlank(s[|t|..])
  {
    StringValues.StripRightIsPrefix(s, ' ');
    if s != "" && s[|s| - 1] == ' ' {
      var front := s[..|s| - 1];
      StrippedRight(front);
      var t := StringValues.StripRight(front, ' ');
      assert s[|t|..] == front[|t|..] + [s[|s| - 1]];
    }
  }

  /** A reason is kept without outer spaces, dropped when blank, and refused when long or with control characters. */
  lemma ReasonsMean(raw: string)
    ensures var t := StringValues.Strip(raw, ' ');
      && ParseReason(None) == Ok(None)
      && (ParseReason(Some(raw)) == Ok(None) <==> t == "")
      && (t != "" ==> (ParseReason(Some(raw)) == Ok(Some(t)) <==> IsNote(t)))
      && (ParseReason(Some(raw)).Err? <==> t != "" && !IsNote(t))
  {
    StripLeavesNoOuterSpace(raw);
    hide StringValues.Strip, IsCc;
  }

  // ------------------------------------------------------------------ change sets

  predicate IsNibbles(u: seq<nat>) { |u| == 32 && forall i :: 0 <= i < |u| ==> u[i] < 16 }

  /** A UUID as its 32 hexadecimal digits. */
  type Uuid = u: seq<nat> | IsNibbles(u) witness seq(32, _ => 0)

  /** Version 7 of the variant whose two leading bits are 10. */
  predicate IsVersion7(u: Uuid) { u[16] / 4 == 2 && u[12] == 7 }

  function HexDigit(n: nat): char
    requires n < 16
  {
    "0123456789abcdef"[n]
  }

  /** The text form, hyphens after 8, 12, 16 and 20 digits. */
  function UuidText(u: Uuid): string {
    seq(36, i requires 0 <= i < 36 =>
      if i < 8 then HexDigit(u[i])
      else if i == 8 || i == 13 || i == 18 || i == 23 then '-'
      else if i < 13 then HexDigit(u[i - 1])
      else if i < 18 then HexDigit(u[i - 2])
      else if i < 23 then HexDigit(u[i - 3])
      else HexDigit(u[i - 4]))
  }

  /** The constraint's reading of the text: positions 15 and 20, counted from one. */
  predicate TextIsVersion7(text: string)
    requires |text| == 36
  {
    text[14] == '7' && text[19] in "89ab"
  }

  lemma VersionsAgree(u: Uuid)
    ensures IsVersion7(u) <==> TextIsVersion7(UuidText(u))
  {
    assert UuidText(u)[14] == HexDigit(u[12]) && UuidText(u)[19] == HexDigit(u[16]);
    assert u[12] < 16 && u[16] < 16;
    HexDigitsAreDistinct(u[12], 7);
    VariantDigits(u[16]);
  }

  lemma HexDigitsAreDistinct(m: nat, n: nat)
    requires m < 16 && n < 16
    ensures HexDigit(m) == HexDigit(n) <==> m == n
  {
  }

  lemma VariantDigits(n: nat)
    requires n < 16
    ensures HexDigit(n) in "89ab" <==> n / 4 == 2
  {
    HexDigitsAreDistinct(n, 8);
    HexDigitsAreDistinct(n, 9);
    HexDigitsAreDistinct(n, 10);
    HexDigitsAreDistinct(n, 11);
  }

  // ------------------------------------------------------------------ requests

  datatype Status = Pending | Approved | Rejected | ModifiedAndApproved

  datatype Request = Request(
    id: Id,
    original: Proposal,
    requester: Id,
    createdAt: Time,
    reason: Option<string>,
    status: Status,
    approved: Option<Proposal>,
    reviewer: Option<Id>,
    message: Option<string>,
    reviewedAt: Option<Time>,
    changeSet: Option<Uuid>)
  {
    predicate Unreviewed() {
      approved.None? && reviewer.None? && message.None? && reviewedAt.None? && changeSet.None?
    }

    /** The invariant every constructed request is checked against. */
    function Checked(): Result<Request, ReviewError> {
      if original.operation == Restore then Err(InvalidReview)
      else if status == Pending then if Unreviewed() then Ok(this) else Err(InvalidReview)
      else if reviewer.None? || reviewedAt.None? || reviewedAt.value < createdAt then Err(InvalidReview)
      else if status == Rejected then
        if message.None? || approved.Some? || changeSet.Some? then Err(InvalidReview) else Ok(this)
      else if approved.None? || changeSet.None? || !IsVersion7(changeSet.value) then Err(InvalidReview)
      else
        var expected :- Classify(approved.value, message);
        if status == expected then Ok(this) else Err(InvalidReview)
    }

    /** Approval keeps operation and target, except that a creation may become a restoration. */
    function Classify(proposal: Proposal, note: Option<string>): Result<Status, ReviewError> {
      if !(original.operation == Create && proposal.operation == Restore)
         && (proposal.operation != original.operation || proposal.target != original.target)
      then Err(InvalidReview)
      else if proposal == original then Ok(Approved)
      else if note.None? then Err(InvalidReview)
      else Ok(ModifiedAndApproved)
    }

    function Approve(proposal: Proposal, judge: Id, at: Time, change: Uuid, note: Option<string>)
      : Result<Request, ReviewError>
    {
      if status != Pending then Err(AlreadyReviewed)
      else
        var outcome :- Classify(proposal, note);
        this.(status := outcome, approved := Some(proposal), reviewer := Some(judge), reviewedAt := Some(at),
              changeSet := Some(change), message := note).Checked()
    }

    function Reject(judge: Id, at: Time, note: string): Result<Request, ReviewError> {
      if status != Pending then Err(AlreadyReviewed)
      else this.(status := Rejected, reviewer := Some(judge), reviewedAt := Some(at), message := Some(note)).Checked()
    }
  }

  // ------------------------------------------------------------------ rows

  /** The table's columns; None is NULL. */
  datatype Row = Row(
    id: Id,
    originalOperation: Operation,
    originalTarget: Option<Id>,
    originalPayload: Option<Json>,
    originalEtag: Option<string>,
    requester: Id,
    reason: Option<string>,
    createdAt: Time,
    status: Status,
    approvedOperation: Option<Operation>,
    approvedTarget: Option<Id>,
    approvedPayload: Option<Json>,
    approvedEtag: Option<string>,
    reviewer: Option<Id>,
    reviewedAt: Option<Time>,
    message: Option<string>,
    changeSet: Option<Uuid>)

  function Original(row: Row): Proposal {
    Proposal(row.originalOperation, row.originalTarget, row.originalPayload, row.originalEtag)
  }

  function NewRow(id: Id, p: Proposal, requester: Id, reason: Option<string>, at: Time): Row {
    Row(id, p.operation, p.target, p.payload, p.etag, requester, reason, at, Pending,
        None, None, None, None, None, None, None, None)
  }

  /** Reads a row back through the constructors of its parts. */
  function FromRow(row: Row): Result<Request, ReviewError> {
    if !Original(row).WellFormed() then Err(InvalidReview)
    else
      var approved: Option<Proposal> :-
        match row.approvedOperation {
          case None => Ok(None)
          case Some(operation) =>
            var p := Proposal(operation, row.approvedTarget, row.approvedPayload, row.approvedEtag);
            if p.WellFormed() then Ok(Some(p)) else Err(InvalidReview)
        };
      var message: Option<string> :-
        match row.message {
          case None => Ok(None)
          case Some(text) => var m :- ParseMessage(text); Ok(Some(m))
        };
      Request(row.id, Original(row), row.requester, row.createdAt, row.reason, row.status,
              approved, row.reviewer, message, row.reviewedAt, row.changeSet).Checked()
  }

  function SetReview(row: Row, r: Request): Row {
    var reviewed := row.(status := r.status, reviewer := r.reviewer, reviewedAt := r.reviewedAt,
                         message := r.message, changeSet := r.changeSet);
    match r.approved
    case None => reviewed
    case Some(p) => reviewed.(approvedOperation := Some(p.operation), approvedTarget := p.target,
                              approvedPayload := p.payload, approvedEtag := p.etag)
  }

  // ------------------------------------------------------------------ constraints

  predicate IsObject(payload: Option<Json>) { payload.Some? && payload.value.Obj? }

  predicate HasStrongEtag(etag: Option<string>) { etag.Some? && IsStrongEtag(etag.value) }

  /** IS NOT DISTINCT FROM on stored payloads. */
  predicate SamePayload(a: Option<Json>, b: Option<Json>) {
    if a.Some? && b.Some? then Numeric(a.value) == Numeric(b.value) else a.None? && b.None?
  }

  predicate OriginalCheck(row: Row) {
    match row.originalOperation
    case Create => row.originalTarget.None? && row.originalEtag.None? && IsObject(row.originalPayload)
    case ReferenceUpdate => row.originalTarget.Some? && HasStrongEtag(row.originalEtag) && IsObject(row.originalPayload)
    case Delete => row.originalTarget.Some? && HasStrongEtag(row.originalEtag) && row.originalPayload.None?
    case Restore => false
  }

  predicate ReasonCheck(row: Row) {
    row.reason.Some? ==> |StringValues.Strip(row.reason.value, ' ')| <= 500
                         && forall i :: 0 <= i < |row.reason.value| ==> !IsCc(row.reason.value[i])
  }

  predicate MessageCheck(row: Row) {
    row.message.Some? ==> 1 <= |row.message.value| <= 500
                          && row.message.value == StringValues.Strip(row.message.value, ' ')
                          && forall i :: 0 <= i < |row.message.value| ==> !IsCc(row.message.value[i])
  }

  predicate NothingApproved(row: Row) {
    && row.approvedOperation.None? && row.approvedTarget.None? && row.approvedPayload.None?
    && row.approvedEtag.None? && row.changeSet.None?
  }

  predicate ReviewedInTime(row: Row) {
    row.reviewer.Some? && row.reviewedAt.Some? && row.reviewedAt.value >= row.createdAt
  }

  predicate ApprovedShape(row: Row) {
    match row.approvedOperation
    case None => false
    case Some(Create) => row.approvedTarget.None? && row.approvedEtag.None? && IsObject(row.approvedPayload)
    case Some(Delete) => row.approvedTarget.Some? && HasStrongEtag(row.approvedEtag) && row.approvedPayload.None?
    case Some(_) => row.approvedTarget.Some? && HasStrongEtag(row.approvedEtag) && IsObject(row.approvedPayload)
  }

  predicate SameColumns(row: Row) {
    && row.approvedOperation == Some(row.originalOperation) && row.approvedTarget == row.originalTarget
    && SamePayload(row.approvedPayload, row.originalPayload) && row.approvedEtag == row.originalEtag
  }

  predicate ApprovalCheck(row: Row) {
    && ReviewedInTime(row)
    && row.changeSet.Some? && TextIsVersion7(UuidText(row.changeSet.value))
    && ApprovedShape(row)
    && ((row.approvedOperation == Some(row.originalOperation) && row.approvedTarget == row.originalTarget)
        || (row.originalOperation == Create && row.approvedOperation == Some(Restore)))
    && (if row.status == Approved then SameColumns(row) else row.message.Some? && !SameColumns(row))
  }

  predicate ReviewCheck(row: Row) {
    match row.status
    case Pending => row.reviewer.None? && row.reviewedAt.None? && row.message.None? && NothingApproved(row)
    case Rejected => ReviewedInTime(row) && row.message.Some? && NothingApproved(row)
    case _ => ApprovalCheck(row)
  }

  predicate Checks(row: Row) { OriginalCheck(row) && ReasonCheck(row) && MessageCheck(row) && ReviewCheck(row) }

  // ------------------------------------------------------------------ the write trigger

  predicate InsertAllowed(row: Row) { row.status == Pending }

  predicate UpdateAllowed(before: Row, after: Row) {
    && before.status == Pending && after.status != Pending
    && after.id == before.id
    && after.originalOperation == before.originalOperation
    && after.originalTarget == before.originalTarget
    && SamePayload(after.originalPayload, before.originalPayload)
    && after.originalEtag == before.originalEtag
    && after.requester == before.requester
    && after.reason == before.reason
    && after.createdAt == before.createdAt
  }

  // ------------------------------------------------------------------ what reviews produce

  predicate NoteOk(note: Option<string>) { note.Some? ==> IsNote(note.value) }

  /** A row as the store keeps it: accepted by every constraint and readable. */
  predicate Sound(row: Row) { Checks(row) && NoteOk(row.message) && FromRow(row).Ok? }

  /** The constructors and the stored comparison disagree about these two proposals. */
  predicate Conflated(p: Proposal, q: Proposal) {
    p != q && p.operation == q.operation && p.target == q.target && p.etag == q.etag
    && SamePayload(p.payload, q.payload)
  }

  predicate EtagOk(p: Proposal) { p.etag.Some? ==> IsStrongEtag(p.etag.value) }

  /** A pending row is read back as the same fields with no review. */
  lemma PendingIsRead(row: Row)
    requires Sound(row) && row.status == Pending
    ensures FromRow(row).value == Request(row.id, Original(row), row.requester, row.createdAt, row.reason, Pending,
                                          None, None, None, None, None)
    ensures Original(row).WellFormed() && Original(row).operation != Restore
  {
  }

  /** Approval by the domain alone is stored unless the two comparisons disagree or the ETag is malformed. */
  lemma ApprovalIsStoredExactlyWhen(
      row: Row, p: Proposal, judge: Id, at: Time, change: Uuid, note: Option<string>)
    requires Sound(row) && row.status == Pending && p.WellFormed() && NoteOk(note)
    requires FromRow(row).value.Approve(p, judge, at, change, note).Ok?
    ensures var a := FromRow(row).value.Approve(p, judge, at, change, note).value;
      && UpdateAllowed(row, SetReview(row, a))
      && (Checks(SetReview(row, a)) <==> EtagOk(p) && !Conflated(p, Original(row)))
      && (a.status == ModifiedAndApproved <==> p != Original(row))
      && (a.status == Approved <==> p == Original(row))
  {
    PendingIsRead(row);
    VersionsAgree(change);
    if note.Some? { NotesAreFixed(note.value); }
    hide UuidText, TextIsVersion7, IsVersion7, IsStrongEtag, Numeric;
    var r := FromRow(row).value;
    var a := r.Approve(p, judge, at, change, note).value;
    var next := SetReview(row, a);
    hide FromRow;
    assert MessageCheck(next) && ReasonCheck(next) && OriginalCheck(next);
    assert ApprovedShape(next) <==> EtagOk(p);
    assert SameColumns(next) <==> p == Original(row) || Conflated(p, Original(row));
  }

  /** Fractional numbers make the comparisons disagree: 1 and 1.0 differ when encoded, not when stored. */
  lemma UnvalidatedNumbersAreConflated()
    ensures var p := Proposal(Create, None, Some(Obj(map["n" := Int(1)])), None);
      var q := Proposal(Create, None, Some(Obj(map["n" := Float(1.0)])), None);
      p.WellFormed() && q.WellFormed() && Conflated(p, q)
  {
    var p, q := Obj(map["n" := Int(1)]), Obj(map["n" := Float(1.0)]);
    assert p.fields["n"] != q.fields["n"];
    assert Numeric(p).fields == map["n" := Float(1.0)] == Numeric(q).fields;
  }

  lemma ValidatedAreNotConflated(p: Proposal, q: Proposal, isUuid: string -> bool)
    requires p.WellFormed() && q.WellFormed() && Validate(p, isUuid).Ok? && Validate(q, isUuid).Ok?
    ensures EtagOk(p) && !Conflated(p, q)
  {
    if p.payload.Some? && q.payload.Some? {
      ValidatedIsFloatFree(p, isUuid);
      ValidatedIsFloatFree(q, isUuid);
      ComparisonsAgree(p.payload.value, q.payload.value);
    }
  }

  /** A stored review is read back as the request that was stored. */
  lemma ReviewIsReadBack(row: Row, r: Request)
    requires Sound(row) && row.status == Pending && NoteOk(r.message) && r.status != Pending
    requires r.Checked() == Ok(r)
    requires r.approved.Some? ==> r.approved.value.WellFormed()
    requires r.id == row.id && r.original == Original(row) && r.requester == row.requester
    requires r.createdAt == row.createdAt && r.reason == row.reason
    ensures FromRow(SetReview(row, r)) == Ok(r)
  {
    if r.message.Some? { NotesAreFixed(r.message.value); }
    hide ParseMessage, IsNote, IsStrongEtag;
  }

  /** Any approval of a validated pending request by a validated proposal is stored and read back. */
  lemma ApprovalIsStored(
      row: Row, p: Proposal, judge: Id, at: Time, change: Uuid, note: Option<string>, isUuid: string -> bool)
    requires Sound(row) && row.status == Pending && p.WellFormed() && NoteOk(note)
    requires Original(row).WellFormed() && Validate(Original(row), isUuid).Ok? && Validate(p, isUuid).Ok?
    requires FromRow(row).value.Approve(p, judge, at, change, note).Ok?
    ensures var a := FromRow(row).value.Approve(p, judge, at, change, note).value;
      var next := SetReview(row, a);
      UpdateAllowed(row, next) && Sound(next) && FromRow(next) == Ok(a) && Original(next) == Original(row)
      && (next.status == ModifiedAndApproved <==> p != Original(row))
  {
    hide Checks, FromRow, Conflated, IsNote, Validate, Request.Approve, Request.Checked, UpdateAllowed, EtagOk,
      Proposal.WellFormed;
    ApprovalIsStoredExactlyWhen(row, p, judge, at, change, note);
    ValidatedAreNotConflated(p, Original(row), isUuid);
    PendingIsRead(row);
    var r := FromRow(row).value;
    ApprovedFields(r, p, judge, at, change, note);
    ReviewIsReadBack(row, r.Approve(p, judge, at, change, note).value);
  }

  /** An approval is again a checked request and keeps what was submitted. */
  lemma ApprovedFields(r: Request, p: Proposal, judge: Id, at: Time, change: Uuid, note: Option<string>)
    requires r.Approve(p, judge, at, change, note).Ok?
    ensures var a := r.Approve(p, judge, at, change, note).value;
      && a.Checked() == Ok(a) && a.status != Pending && a.approved == Some(p) && a.message == note
      && a.id == r.id && a.original == r.original && a.requester == r.requester
      && a.createdAt == r.createdAt && a.reason == r.reason
  {
  }

  lemma RejectionIsStored(row: Row, judge: Id, at: Time, note: string)
    requires Sound(row) && row.status == Pending && IsNote(note)
    requires FromRow(row).value.Reject(judge, at, note).Ok?
    ensures var a := FromRow(row).value.Reject(judge, at, note).value;
      var next := SetReview(row, a);
      UpdateAllowed(row, next) && Sound(next) && FromRow(next) == Ok(a) && Original(next) == Original(row)
  {
    PendingIsRead(row);
    NotesAreFixed(note);
    var a := FromRow(row).value.Reject(judge, at, note).value;
    ReviewIsReadBack(row, a);
  }

  /** A validated submission is stored as a pending row. */
  lemma SubmissionIsStored(
      id: Id, p: Proposal, requester: Id, raw: Option<string>, at: Time, isUuid: string -> bool)
    requires p.WellFormed() && p.operation != Restore && Validate(p, isUuid).Ok? && ParseReason(raw).Ok?
    ensures var row := NewRow(id, p, requester, ParseReason(raw).value, at);
      InsertAllowed(row) && Sound(row) && Original(row) == p
  {
    ReasonsAreKept(raw);
    assert EtagOk(p);
    hide IsStrongEtag, Validate, ParseMessage, ParseReason, IsNote, StringValues.Strip;
  }

  lemma ReasonsAreKept(raw: Option<string>)
    requires ParseReason(raw).Ok?
    ensures var reason := ParseReason(raw).value;
      reason.Some? ==> IsNote(reason.value) && StringValues.Strip(reason.value, ' ') == reason.value
  {
    var reason := ParseReason(raw).value;
    if reason.Some? {
      StripLeavesNoOuterSpace(raw.value);
      NotesAreFixed(reason.value);
    }
  }

  // ------------------------------------------------------------------ domain and database agree

  /** All columns of a request. */
  function Columns(r: Request): Row {
    var o := r.original;
    Row(r.id, o.operation, o.target, o.payload, o.etag, r.requester, r.reason, r.createdAt, r.status,
        if r.approved.Some? then Some(r.approved.value.operation) else None,
        if r.approved.Some? then r.approved.value.target else None,
        if r.approved.Some? then r.approved.value.payload else None,
        if r.approved.Some? then r.approved.value.etag else None,
        r.reviewer, r.reviewedAt, r.message, r.changeSet)
  }

  /** Proposals as their constructors and the validation leave them. */
  predicate ProperProposals(r: Request) {
    && r.original.WellFormed() && EtagOk(r.original)
    && (r.approved.Some? ==>
          r.approved.value.WellFormed() && EtagOk(r.approved.value) && !Conflated(r.approved.value, r.original))
  }

  /**
   The invariant the domain checks and the constraints the database checks are the same: a
   request of proper proposals can be constructed exactly when its row may be stored.
   */
  lemma InvariantIsConstraint(r: Request)
    requires ProperProposals(r)
    ensures r.Checked().Ok? <==> OriginalCheck(Columns(r)) && ReviewCheck(Columns(r))
    ensures r.Checked().Ok? ==> r.Checked().value == r
  {
    if r.changeSet.Some? { VersionsAgree(r.changeSet.value); }
    hide UuidText, TextIsVersion7, IsVersion7, IsStrongEtag, Numeric;
  }

  /** A stored request is read back as it was stored. */
  lemma RequestsAreReadBack(r: Request)
    requires r.Checked() == Ok(r) && r.original.WellFormed() && NoteOk(r.message)
    requires r.approved.Some? ==> r.approved.value.WellFormed()
    ensures FromRow(Columns(r)) == Ok(r)
  {
    if r.message.Some? { NotesAreFixed(r.message.value); }
    hide ParseMessage, IsNote, IsStrongEtag;
  }
}
