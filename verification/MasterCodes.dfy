/** MasterCode aggregates: composition of codes and the pure transitions. */
module MasterCodes {
  import opened Wrappers
  import opened Text
  import opened Dimensions

  const NOT_APPLICABLE := "NNN"

  type Dimensions8 = d: seq<Option<Dimension>> | |d| == SLOTS
    witness [None, None, None, None, None, None, None, None]
  type References = r: seq<Option<Id>> | |r| == SLOTS
    witness [None, None, None, None, None, None, None, None]

  // ------------------------------------------------------------ composition

  function Join(parts: seq<string>): string {
    if parts == [] then "" else if |parts| == 1 then parts[0]
    else parts[0] + "-" + Join(parts[1..])
  }

  function Part(d: Option<Dimension>): string {
    if d.None? then NOT_APPLICABLE else d.value.code
  }

  function Compose(dims: Dimensions8): string { Join(seq(SLOTS, i requires 0 <= i < SLOTS => Part(dims[i]))) }

  function Ids(dims: Dimensions8): References {
    seq(SLOTS, i requires 0 <= i < SLOTS => if dims[i].None? then None else Some(dims[i].value.id))
  }

  predicate HyphenFree(s: string) { '-' !in s }

  lemma FirstPart(a: string, b: string, x: string, y: string)
    requires HyphenFree(a) && HyphenFree(b)
    requires a + "-" + x == b + "-" + y
    ensures a == b && x == y
  {
    var s := a + "-" + x;
    assert s[|a|] == '-' && s[|b|] == '-';
    assert forall i :: 0 <= i < |a| ==> s[i] == a[i] && a[i] in a;
    assert forall i :: 0 <= i < |b| ==> s[i] == b[i] && b[i] in b;
    assert a == s[..|a|] && x == s[|a| + 1..];
    assert b == s[..|b|] && y == s[|b| + 1..];
  }

  /** Joining hyphen-free parts loses nothing: the parts can be read back. */
  lemma {:induction false} JoinIsInjective(a: seq<string>, b: seq<string>)
    requires |a| == |b|
    requires forall i :: 0 <= i < |a| ==> HyphenFree(a[i]) && HyphenFree(b[i])
    requires Join(a) == Join(b)
    ensures a == b
  {
    if |a| > 1 {
      FirstPart(a[0], b[0], Join(a[1..]), Join(b[1..]));
      JoinIsInjective(a[1..], b[1..]);
      assert a == [a[0]] + a[1..] && b == [b[0]] + b[1..];
    } else if |a| == 1 {
      assert a == [a[0]] && b == [b[0]];
    }
  }

  lemma ValidCodeIsPlain(c: string)
    requires ValidCode(c)
    ensures HyphenFree(c) && c != NOT_APPLICABLE
  {
    var i :| 0 <= i < |c| && c[i] != 'N';
    assert forall k :: 0 <= k < 3 ==> NOT_APPLICABLE[k] == 'N';
  }

  // -------------------------------------------------------- the shape of a code

  const CODE_LIMIT: nat := 263

  predicate IsPart(s: string) { 1 <= |s| <= 32 && forall i :: 0 <= i < |s| ==> IsUpperAlnum(s[i]) }

  function FirstHyphen(s: string): (n: nat)
    ensures n <= |s| && (n < |s| ==> s[n] == '-')
    ensures forall i :: 0 <= i < n ==> s[i] != '-'
  {
    if s == [] || s[0] == '-' then 0 else 1 + FirstHyphen(s[1..])
  }

  /** `n` parts of 1 to 32 capitals and digits, separated by hyphens. */
  predicate MatchesParts(s: string, n: nat)
    decreases |s|
  {
    if n == 0 then false
    else if n == 1 then IsPart(s)
    else
      var k := FirstHyphen(s);
      k < |s| && IsPart(s[..k]) && MatchesParts(s[k + 1..], n - 1)
  }

  /** The pattern and the column width the database demands of a stored code. */
  predicate CodeShape(s: string) { |s| <= CODE_LIMIT && MatchesParts(s, SLOTS) }

  lemma {:induction false} JoinMatches(parts: seq<string>)
    requires parts != [] && forall i :: 0 <= i < |parts| ==> IsPart(parts[i])
    ensures MatchesParts(Join(parts), |parts|) && |Join(parts)| <= 33 * |parts| - 1
  {
    if |parts| > 1 {
      var s, head, rest := Join(parts), parts[0], Join(parts[1..]);
      JoinMatches(parts[1..]);
      assert s == head + "-" + rest;
      assert FirstHyphen(s) == |head| by {
        assert s[|head|] == '-';
        assert forall i :: 0 <= i < |head| ==> s[i] == head[i] && IsUpperAlnum(s[i]);
      }
      assert s[..|head|] == head && s[|head| + 1..] == rest;
    }
  }

  /** The composition of Dimensions with valid codes always has the stored shape. */
  lemma ComposedHasShape(dims: Dimensions8)
    requires forall s: Slot :: dims[s].Some? ==> ValidCode(dims[s].value.code)
    ensures CodeShape(Compose(dims))
  {
    var parts := seq(SLOTS, i requires 0 <= i < SLOTS => Part(dims[i]));
    forall i | 0 <= i < |parts| ensures IsPart(parts[i]) {
      var s: Slot := i;
      assert parts[i] == Part(dims[s]);
    }
    JoinMatches(parts);
  }

  // ------------------------------------------------------ reading a code back

  /** The s-th hyphen-delimited segment of a text, counted from zero. */
  function Segment(text: string, s: nat): Option<string> {
    var k := FirstHyphen(text);
    if s == 0 then Some(text[..k])
    else if k == |text| then None
    else Segment(text[k + 1..], s - 1)
  }

  lemma {:induction false} SegmentOfJoin(parts: seq<string>, s: nat)
    requires parts != [] && s <= |parts| && forall i :: 0 <= i < |parts| ==> HyphenFree(parts[i])
    ensures Segment(Join(parts), s) == if s < |parts| then Some(parts[s]) else None
  {
    hide Segment, HyphenFree;
    var head := parts[0];
    if |parts| == 1 {
      LastSegment(head, s);
    } else {
      var rest := Join(parts[1..]);
      FirstSegment(head, rest, s);
      if s > 0 { SegmentOfJoin(parts[1..], s - 1); }
    }
  }

  lemma LastSegment(head: string, s: nat)
    requires HyphenFree(head)
    ensures Segment(head, s) == if s == 0 then Some(head) else None
  {
    EndsAtHyphen(head, "");
    assert head + "" == head;
    hide FirstHyphen;
  }

  lemma FirstSegment(head: string, rest: string, s: nat)
    requires HyphenFree(head)
    ensures Segment(head + "-" + rest, s) == if s == 0 then Some(head) else Segment(rest, s - 1)
  {
    hide FirstHyphen;
    var text := head + "-" + rest;
    EndsAtHyphen(head, "-" + rest);
    assert text == head + ("-" + rest);
    assert text[|head| + 1..] == rest;
  }

  lemma EndsAtHyphen(head: string, tail: string)
    requires HyphenFree(head) && (tail == "" || tail[0] == '-')
    ensures FirstHyphen(head + tail) == |head| && (head + tail)[..|head|] == head
  {
    hide FirstHyphen;
    var text := head + tail;
    var n := FirstHyphen(text);
    forall i | 0 <= i < |head| ensures text[i] != '-' {
      assert text[i] == head[i] && head[i] in head;
    }
    assert tail != "" ==> text[|head|] == '-';
  }

  /** A code has eight segments, in slot order: the slot's Dimension code, or NNN where there is none. */
  lemma ComposedSegments(dims: Dimensions8, s: nat)
    requires s <= 8 && forall i: Slot :: dims[i].Some? ==> HyphenFree(dims[i].value.code)
    ensures Segment(Compose(dims), s)
      == if s == 8 then None else Some(if dims[s].None? then "NNN" else dims[s].value.code)
  {
    var parts := seq(SLOTS, i requires 0 <= i < SLOTS => Part(dims[i]));
    forall i | 0 <= i < |parts| ensures HyphenFree(parts[i]) {
      var slot: Slot := i;
      assert parts[i] == Part(dims[slot]);
    }
    SegmentOfJoin(parts, s);
  }

  // ------------------------------------------------------------- aggregates

  datatype MasterCodeError =
    | InactiveReference | CodeMismatch | InvalidVersion | InvalidTimes
    | ReferencesChanged | DeletedRow | NotDeletedRow | TimeGoesBackwards

  datatype MasterCode = MasterCode(
    id: Id,
    dims: Dimensions8,
    code: string,
    version: int,
    createdAt: Time,
    updatedAt: Time,
    deletedAt: Option<Time>)
  {
    /** The constructor's own validation. */
    function Checked(): (r: Result<MasterCode, MasterCodeError>)
      ensures r.Ok? <==> Valid()
      ensures r.Ok? ==> r.value == this
    {
      if deletedAt.None? && exists s: Slot :: dims[s].Some? && dims[s].value.IsDeleted() then
        Err(InactiveReference)
      else if code != Compose(dims) then Err(CodeMismatch)
      else if version < 1 then Err(InvalidVersion)
      else if updatedAt < createdAt || (version == 1 && updatedAt != createdAt)
              || (deletedAt.Some? && !(createdAt <= deletedAt.value <= updatedAt)) then Err(InvalidTimes)
      else Ok(this)
    }

    predicate Valid() {
      code == Compose(dims)
      && (deletedAt.None? ==> forall s: Slot :: dims[s].Some? ==> !dims[s].value.IsDeleted())
      && version >= 1
      && createdAt <= updatedAt
      && (version == 1 ==> updatedAt == createdAt)
      && (deletedAt.Some? ==> createdAt <= deletedAt.value <= updatedAt)
    }

    static function Create(id: Id, dims: Dimensions8, at: Time): (r: Result<MasterCode, MasterCodeError>) {
      MasterCode(id, dims, Compose(dims), 1, at, at, None).Checked()
    }

    function Recompose(next: Dimensions8, at: Time): (r: Result<MasterCode, MasterCodeError>) {
      if Ids(next) != Ids(dims) then Err(ReferencesChanged)
      else if Compose(next) == code then Ok(this)
      else if at < updatedAt then Err(TimeGoesBackwards)
      else this.(dims := next, code := Compose(next), version := version + 1, updatedAt := at).Checked()
    }

    function UpdateReferences(next: Dimensions8, at: Time): (r: Result<MasterCode, MasterCodeError>) {
      if deletedAt.Some? then Err(DeletedRow)
      else if Ids(next) == Ids(dims) then Ok(this)
      else if at < updatedAt then Err(TimeGoesBackwards)
      else this.(dims := next, code := Compose(next), version := version + 1, updatedAt := at).Checked()
    }

    function Delete(at: Time): (r: Result<MasterCode, MasterCodeError>) {
      if deletedAt.Some? then Err(DeletedRow)
      else if at < updatedAt then Err(TimeGoesBackwards)
      else this.(deletedAt := Some(at), updatedAt := at, version := version + 1).Checked()
    }

    function Restore(at: Time): (r: Result<MasterCode, MasterCodeError>) {
      if deletedAt.None? then Err(NotDeletedRow)
      else if at < updatedAt then Err(TimeGoesBackwards)
      else this.(code := Compose(dims), deletedAt := None, updatedAt := at, version := version + 1).Checked()
    }

    /** What the strong validator digests: its own version and each reference with its version. */
    function Vector(): EtagVector {
      EtagVector(version, seq(SLOTS, i requires 0 <= i < SLOTS =>
        if dims[i].None? then None else Some((dims[i].value.id, dims[i].value.version))))
    }
  }

  datatype EtagVector = EtagVector(version: int, references: seq<Option<(Id, int)>>)
}
