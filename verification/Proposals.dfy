/** Proposed changes: their JSON payloads, their shape, and the validation of every selection. */
module Proposals {
  import opened Wrappers
  import opened Text
  import opened Dimensions
  import StringValues

  // ------------------------------------------------------------------ payloads

  /** A decoded JSON value. Payloads compare by their sorted encoding, that is by structure. */
  datatype Json =
    | Null
    | Bool(flag: bool)
    | Int(number: int)
    | Float(point: real)
    | Str(text: string)
    | Arr(items: seq<Json>)
    | Obj(fields: map<string, Json>)

  /** What a stored payload compares by: numbers are compared by value alone. */
  function Numeric(j: Json): Json {
    match j
    case Int(n) => Float(n as real)
    case Arr(items) => Arr(seq(|items|, i requires 0 <= i < |items| => Numeric(items[i])))
    case Obj(fields) => Obj(map k | k in fields :: Numeric(fields[k]))
    case _ => j
  }

  predicate FloatFree(j: Json) {
    match j
    case Float(_) => false
    case Arr(items) => forall i :: 0 <= i < |items| ==> FloatFree(items[i])
    case Obj(fields) => forall k :: k in fields ==> FloatFree(fields[k])
    case _ => true
  }

  /** Without fractional numbers the two comparisons agree. */
  lemma {:induction false} ComparisonsAgree(a: Json, b: Json)
    requires FloatFree(a) && FloatFree(b)
    ensures Numeric(a) == Numeric(b) <==> a == b
    decreases a
  {
    if a.Arr? && b.Arr? && Numeric(a) == Numeric(b) {
      ArraysAgree(a, b);
    } else if a.Obj? && b.Obj? && Numeric(a) == Numeric(b) {
      ObjectsAgree(a, b);
    }
  }

  lemma {:induction false} ArraysAgree(a: Json, b: Json)
    requires a.Arr? && b.Arr? && FloatFree(a) && FloatFree(b) && Numeric(a) == Numeric(b)
    ensures a == b
    decreases a, 0
  {
    var x, y := Numeric(a).items, Numeric(b).items;
    assert |x| == |a.items| && |y| == |b.items|;
    forall i | 0 <= i < |a.items| ensures a.items[i] == b.items[i] {
      assert x[i] == Numeric(a.items[i]) && y[i] == Numeric(b.items[i]);
      ComparisonsAgree(a.items[i], b.items[i]);
    }
  }

  lemma {:induction false} ObjectsAgree(a: Json, b: Json)
    requires a.Obj? && b.Obj? && FloatFree(a) && FloatFree(b) && Numeric(a) == Numeric(b)
    ensures a == b
    decreases a, 0
  {
    var x, y := Numeric(a).fields, Numeric(b).fields;
    assert x.Keys == a.fields.Keys && y.Keys == b.fields.Keys;
    forall k | k in a.fields ensures a.fields[k] == b.fields[k] {
      assert x[k] == Numeric(a.fields[k]) && y[k] == Numeric(b.fields[k]);
      ComparisonsAgree(a.fields[k], b.fields[k]);
    }
  }

  // ------------------------------------------------------------------ proposals

  datatype Operation = Create | ReferenceUpdate | Delete | Restore

  datatype Proposal = Proposal(
    operation: Operation, target: Option<Id>, payload: Option<Json>, etag: Option<string>)
  {
    /** The shape every proposal is constructed with. */
    predicate WellFormed() {
      && (if operation == Create then target.None? && etag.None? else target.Some? && etag.Some? && etag.value != "")
      && (if operation == Delete then payload.None? else payload.Some? && payload.value.Obj?)
    }
  }

  predicate IsHex(c: char) { '0' <= c <= '9' || 'a' <= c <= 'f' }

  predicate IsDigits(s: string) { forall i :: 0 <= i < |s| ==> '0' <= s[i] <= '9' }

  /** "mc-N-H" in double quotes: N a decimal without leading zero, H 64 lower-case hex digits. */
  predicate IsStrongEtag(s: string) {
    && |s| >= 71
    && s[..4] == "\"mc-"
    && s[|s| - 1] == '"'
    && s[|s| - 66] == '-'
    && (forall i :: |s| - 65 <= i < |s| - 1 ==> IsHex(s[i]))
    && var version := s[4..|s| - 66];
       version != "" && version[0] != '0' && IsDigits(version)
  }

  // ------------------------------------------------------------------ selections

  const SLOT_NAMES: seq<string> :=
    ["company", "brand", "model", "category", "year", "memory", "network", "country"]

  function SlotNamed(name: string): (slot: Slot)
    requires name in SLOT_NAMES
    ensures SLOT_NAMES[slot] == name
  {
    var i :| 0 <= i < |SLOT_NAMES| && SLOT_NAMES[i] == name;
    i
  }

  /** A selection as written, and as normalized. */
  datatype Written = WrittenNone | WrittenReference(id: string) | WrittenInline(code: Json, value: Json)

  datatype Selection = NotApplicable | Existing(id: string) | Inline(code: string, value: Value)

  datatype ReviewError =
    | InvalidEtag | InvalidPayload | InvalidSlots | InvalidSelection | InvalidDimension
    | InvalidReview | AlreadyReviewed | NotFound | NotApplied | ConstraintViolated

  /** The shape of one selection; `isUuid` tells which texts the UUID parser reads. */
  function Shape(name: string, j: Json, restoring: bool, isUuid: string -> bool): Option<Written> {
    if !j.Obj? || "mode" !in j.fields then None
    else
      var keys := j.fields.Keys;
      var mode := j.fields["mode"];
      if mode == Str("NOT_APPLICABLE") && keys == {"mode"} then Some(WrittenNone)
      else if mode == Str("REFERENCE") && keys == {"mode", "id"} then
        var id := j.fields["id"];
        if id.Str? && isUuid(id.text) then Some(WrittenReference(id.text)) else None
      else if mode == Str("CREATE") && keys == {"mode", "code", "value"} then
        var value := j.fields["value"];
        if restoring || (name == "memory" && !(value.Obj? && value.fields.Keys == {"amount", "unit"})) then None
        else Some(WrittenInline(j.fields["code"], value))
      else None
  }

  function ParseUnit(s: string): Option<Unit> {
    if exists i :: 0 <= i < |s| && IsControl(s[i]) then None
    else match Upper(StringValues.Strip(s, ' '))
      case "MB" => Some(MB)
      case "GB" => Some(GB)
      case "TB" => Some(TB)
      case "PB" => Some(PB)
      case _ => None
  }

  function ParseMemory(j: Json): Option<Value> {
    if !(j.Obj? && j.fields.Keys == {"amount", "unit"}) then None
    else
      var amount, unit := j.fields["amount"], j.fields["unit"];
      if !unit.Str? || ParseUnit(unit.text).None? then None
      else if amount.Int? && 1 <= amount.number <= 2_147_483_647 then
        Some(MemoryValue(amount.number, ParseUnit(unit.text).value))
      else None
  }

  function ParseValue(slot: Slot, j: Json): Option<Value> {
    if slot == YEAR then
      if j.Int? && 2000 <= j.number <= 2999 then Some(YearValue(j.number)) else None
    else if slot == NETWORK then
      if j.Int? && 1 <= j.number <= 5 then Some(GenerationValue(j.number)) else None
    else if slot == MEMORY then ParseMemory(j)
    else if j.Str? && StringValues.Normalize(j.text).Ok? then Some(TextValue(StringValues.Normalize(j.text).value))
    else None
  }

  function Normalized(slot: Slot, w: Written): Option<Selection> {
    match w
    case WrittenNone => Some(NotApplicable)
    case WrittenReference(id) => Some(Existing(id))
    case WrittenInline(code, value) =>
      if code.Str? && ParseCode(code.text).Ok? && ParseValue(slot, value).Some?
      then Some(Inline(ParseCode(code.text).value, ParseValue(slot, value).value)) else None
  }

  predicate Shaped(dims: map<string, Json>, restoring: bool, isUuid: string -> bool) {
    forall k :: k in dims ==> Shape(k, dims[k], restoring, isUuid).Some?
  }

  function Selected(dims: map<string, Json>, restoring: bool, isUuid: string -> bool, k: string): Option<Selection>
    requires k in dims && k in SLOT_NAMES && Shape(k, dims[k], restoring, isUuid).Some?
  {
    Normalized(SlotNamed(k), Shape(k, dims[k], restoring, isUuid).value)
  }

  function Slots(dims: map<string, Json>, restoring: bool, isUuid: string -> bool)
    : Result<map<string, Selection>, ReviewError>
    requires forall k :: k in dims ==> k in SLOT_NAMES
  {
    if !Shaped(dims, restoring, isUuid) then Err(InvalidSelection)
    else if exists k :: k in dims && Selected(dims, restoring, isUuid, k).None? then Err(InvalidDimension)
    else Ok(map k | k in dims :: Selected(dims, restoring, isUuid, k).value)
  }

  predicate AllSlots(names: set<string>) { forall i :: 0 <= i < |SLOT_NAMES| ==> SLOT_NAMES[i] in names }

  /** The normalized selections of a proposal; nothing is looked up. */
  function Validate(p: Proposal, isUuid: string -> bool): Result<map<string, Selection>, ReviewError>
    requires p.WellFormed()
  {
    if p.etag.Some? && !IsStrongEtag(p.etag.value) then Err(InvalidEtag)
    else if p.operation == Delete then Ok(map[])
    else
      var fields := p.payload.value.fields;
      if fields.Keys != {"dimensions"} || !fields["dimensions"].Obj? then Err(InvalidPayload)
      else
        var dims := fields["dimensions"].fields;
        if dims == map[] || exists k :: k in dims && k !in SLOT_NAMES then Err(InvalidSlots)
        else if p.operation != ReferenceUpdate && !AllSlots(dims.Keys) then Err(InvalidSlots)
        else Slots(dims, p.operation == Restore, isUuid)
  }

  /** An accepted value is what its slot may store, and an accepted code is a valid code. */
  lemma SelectionsAreValid(slot: Slot, w: Written)
    ensures var r := Normalized(slot, w);
      r.Some? && r.value.Inline? ==> ValidCode(r.value.code) && ValidValue(slot, r.value.value)
  {
    if w.WrittenInline? && w.value.Str? && StringValues.Normalize(w.value.text).Ok? {
      StringValues.NormalizeMeaning(w.value.text);
    }
  }

  /** A validated payload holds no fractional number. */
  lemma ValidatedIsFloatFree(p: Proposal, isUuid: string -> bool)
    requires p.WellFormed() && Validate(p, isUuid).Ok? && p.payload.Some?
    ensures FloatFree(p.payload.value)
  {
    var fields := p.payload.value.fields;
    var dims := fields["dimensions"].fields;
    forall k | k in dims ensures FloatFree(dims[k]) {
      assert Selected(dims, p.operation == Restore, isUuid, k).Some?;
      SelectionIsFloatFree(k, dims[k], p.operation == Restore, isUuid);
    }
    assert forall k :: k in fields ==> k == "dimensions";
  }

  lemma SelectionIsFloatFree(k: string, j: Json, restoring: bool, isUuid: string -> bool)
    requires k in SLOT_NAMES && Shape(k, j, restoring, isUuid).Some?
    requires Normalized(SlotNamed(k), Shape(k, j, restoring, isUuid).value).Some?
    ensures FloatFree(j)
  {
    var w := Shape(k, j, restoring, isUuid).value;
    if w.WrittenInline? {
      ValueIsFloatFree(SlotNamed(k), w.value);
    }
    forall f | f in j.fields ensures FloatFree(j.fields[f]) {
      assert f in j.fields.Keys;
    }
  }

  lemma ValueIsFloatFree(slot: Slot, j: Json)
    requires ParseValue(slot, j).Some?
    ensures FloatFree(j)
  {
    if j.Obj? {
      forall f | f in j.fields ensures FloatFree(j.fields[f]) {
        assert f in j.fields.Keys;
      }
    }
  }

  // ------------------------------------------------------------------ what validation means

  function UnitName(u: Unit): string {
    match u case MB => "MB" case GB => "GB" case TB => "TB" case PB => "PB"
  }

  /** A unit is read from its name in any case, with spaces around it and no control character. */
  lemma UnitsAreNamed(s: string, u: Unit)
    ensures ParseUnit(s) == Some(u) <==>
      (forall i :: 0 <= i < |s| ==> !IsControl(s[i])) && Upper(StringValues.Strip(s, ' ')) == UnitName(u)
  {
    hide Upper, StringValues.Strip, IsControl;
  }

  /** The value an inline Dimension asks for, by the type of its slot. */
  predicate Asks(slot: Slot, j: Json, v: Value) {
    match v
    case YearValue(y) => slot == YEAR && j == Int(y)
    case GenerationValue(g) => slot == NETWORK && j == Int(g)
    case MemoryValue(amount, unit) =>
      slot == MEMORY && j.Obj? && j.fields.Keys == {"amount", "unit"} && j.fields["amount"] == Int(amount)
      && j.fields["unit"].Str? && ParseUnit(j.fields["unit"].text) == Some(unit)
    case TextValue(text) =>
      slot != YEAR && slot != NETWORK && slot != MEMORY && j.Str? && StringValues.Reference(j.text) == text
      && forall c :: c in j.text ==> StringValues.IsInputChar(c)
  }

  /** A value is accepted exactly when it asks for one its slot may store, and then it is that one. */
  lemma ValuesAreAsked(slot: Slot, j: Json, v: Value)
    ensures ParseValue(slot, j) == Some(v) <==> Asks(slot, j, v) && ValidValue(slot, v)
  {
    if j.Str? {
      StringValues.NormalizeMeaning(j.text);
      NormalHasLength(StringValues.Reference(j.text));
    }
    hide StringValues.Normalize, StringValues.Reference, StringValues.MatchesPattern, StringValues.IsInputChar,
      ParseUnit;
  }

  lemma NormalHasLength(s: string)
    ensures StringValues.IsNormal(s) ==> 1 <= |s| <= 128
  {
  }

  /** What a written selection selects. */
  predicate Selects(slot: Slot, j: Json, restoring: bool, isUuid: string -> bool, x: Selection) {
    && j.Obj?
    && match x
       case NotApplicable => j.fields == map["mode" := Str("NOT_APPLICABLE")]
       case Existing(id) => j.fields == map["mode" := Str("REFERENCE"), "id" := Str(id)] && isUuid(id)
       case Inline(code, value) =>
         && !restoring && j.fields.Keys == {"mode", "code", "value"} && j.fields["mode"] == Str("CREATE")
         && j.fields["code"].Str? && ParseCode(j.fields["code"].text) == Ok(code)
         && Asks(slot, j.fields["value"], value) && ValidValue(slot, value)
  }

  /** The selections of an accepted object: as many as it has slots, each what is written there. */
  predicate SelectsAll(dims: map<string, Json>, restoring: bool, isUuid: string -> bool, r: map<string, Selection>) {
    r.Keys == dims.Keys
    && forall k :: k in dims ==> k in SLOT_NAMES && Selects(SlotNamed(k), dims[k], restoring, isUuid, r[k])
  }

  lemma ShapeSelects(name: string, j: Json, restoring: bool, isUuid: string -> bool, x: Selection)
    requires name in SLOT_NAMES
    ensures var w := Shape(name, j, restoring, isUuid);
      w.Some? && Normalized(SlotNamed(name), w.value) == Some(x)
      <==> Selects(SlotNamed(name), j, restoring, isUuid, x)
  {
    var slot := SlotNamed(name);
    MemorySlot(name);
    if j.Obj? && "value" in j.fields {
      if x.Inline? { ValuesAreAsked(slot, j.fields["value"], x.value); }
    }
    hide ParseValue, ParseCode, Asks, SlotNamed, ValidValue, SLOT_NAMES;
    if j.Obj? { FieldsByKeys(j.fields); }
  }

  lemma MemorySlot(name: string)
    requires name in SLOT_NAMES
    ensures name == "memory" <==> SlotNamed(name) == MEMORY
  {
  }

  lemma FieldsByKeys(fields: map<string, Json>)
    ensures fields.Keys == {"mode"} ==> fields == map["mode" := fields["mode"]]
    ensures fields.Keys == {"mode", "id"} ==> fields == map["mode" := fields["mode"], "id" := fields["id"]]
  {
  }

  /** What a strong ETag looks like, spelled out. */
  predicate EtagOf(s: string, version: string, digest: string) {
    && s == "\"mc-" + version + "-" + digest + "\""
    && version != "" && version[0] != '0' && IsDigits(version)
    && |digest| == 64 && forall i :: 0 <= i < 64 ==> IsHex(digest[i])
  }

  lemma StrongEtagsAreSpelled(s: string)
    ensures IsStrongEtag(s) <==> exists version, digest :: EtagOf(s, version, digest)
  {
    if IsStrongEtag(s) {
      var version, digest := s[4..|s| - 66], s[|s| - 65..|s| - 1];
      assert s == s[..4] + version + s[|s| - 66..|s| - 65] + digest + s[|s| - 1..];
      assert EtagOf(s, version, digest);
    }
    if version, digest :| EtagOf(s, version, digest) {
      assert s[4..|s| - 66] == version;
      assert s[|s| - 65..|s| - 1] == digest;
      forall i | |s| - 65 <= i < |s| - 1 ensures IsHex(s[i]) {
        assert s[i] == digest[i - (|s| - 65)];
      }
    }
  }

  /** What a proposal must be to validate, and what it then selects. */
  predicate Acceptable(p: Proposal, isUuid: string -> bool, r: map<string, Selection>)
    requires p.WellFormed()
  {
    && (p.etag.Some? ==> IsStrongEtag(p.etag.value))
    && if p.operation == Delete then r == map[]
       else
         var fields := p.payload.value.fields;
         && fields.Keys == {"dimensions"} && fields["dimensions"].Obj?
         && var dims := fields["dimensions"].fields;
            && dims != map[]
            && (p.operation != ReferenceUpdate ==> dims.Keys == set name | name in SLOT_NAMES)
            && SelectsAll(dims, p.operation == Restore, isUuid, r)
  }

  /** A proposal validates exactly when it is acceptable: CREATE and RESTORE name all eight slots, an update some. */
  lemma ValidationMeans(p: Proposal, isUuid: string -> bool, r: map<string, Selection>)
    requires p.WellFormed()
    ensures Validate(p, isUuid) == Ok(r) <==> Acceptable(p, isUuid, r)
  {
    if p.operation != Delete && p.payload.value.fields.Keys == {"dimensions"}
       && p.payload.value.fields["dimensions"].Obj?
    {
      var dims := p.payload.value.fields["dimensions"].fields;
      AllSlotsAreNamed(dims.Keys);
      if forall k :: k in dims ==> k in SLOT_NAMES { SlotsSelect(dims, p.operation == Restore, isUuid, r); }
    }
    hide Slots, SelectsAll, AllSlots, SLOT_NAMES, IsStrongEtag;
    assert forall dims: map<string, Json>, restoring ::
      SelectsAll(dims, restoring, isUuid, r) ==> forall k :: k in dims ==> k in SLOT_NAMES by { NamedSlots(isUuid, r); }
  }

  lemma NamedSlots(isUuid: string -> bool, r: map<string, Selection>)
    ensures forall dims: map<string, Json>, restoring ::
      SelectsAll(dims, restoring, isUuid, r) ==> forall k :: k in dims ==> k in SLOT_NAMES
  {
  }

  lemma AllSlotsAreNamed(names: set<string>)
    ensures (AllSlots(names) && forall k :: k in names ==> k in SLOT_NAMES) <==> names == set name | name in SLOT_NAMES
  {
    if AllSlots(names) && forall k :: k in names ==> k in SLOT_NAMES {
      forall k | k in SLOT_NAMES ensures k in names {
        var i :| 0 <= i < |SLOT_NAMES| && SLOT_NAMES[i] == k;
      }
    }
    if names == set name | name in SLOT_NAMES {
      forall i | 0 <= i < |SLOT_NAMES| ensures SLOT_NAMES[i] in names {
        assert SLOT_NAMES[i] in SLOT_NAMES;
      }
    }
  }

  lemma SlotsSelect(dims: map<string, Json>, restoring: bool, isUuid: string -> bool, r: map<string, Selection>)
    requires forall k :: k in dims ==> k in SLOT_NAMES
    ensures Slots(dims, restoring, isUuid) == Ok(r) <==> SelectsAll(dims, restoring, isUuid, r)
  {
    hide Shape, Normalized, SlotNamed, Selects, SLOT_NAMES;
    if SelectsAll(dims, restoring, isUuid, r) {
      forall k | k in dims ensures Shape(k, dims[k], restoring, isUuid).Some? {
        ShapeSelects(k, dims[k], restoring, isUuid, r[k]);
      }
      forall k | k in dims ensures Selected(dims, restoring, isUuid, k) == Some(r[k]) {
        ShapeSelects(k, dims[k], restoring, isUuid, r[k]);
      }
      assert Slots(dims, restoring, isUuid).Ok?;
      assert Slots(dims, restoring, isUuid).value == r;
    }
    if Slots(dims, restoring, isUuid) == Ok(r) {
      forall k | k in dims ensures Selects(SlotNamed(k), dims[k], restoring, isUuid, r[k]) {
        assert Selected(dims, restoring, isUuid, k) == Some(r[k]);
        ShapeSelects(k, dims[k], restoring, isUuid, r[k]);
      }
    }
  }

  /** Which error is reported first. */
  lemma ValidationErrors(p: Proposal, isUuid: string -> bool)
    requires p.WellFormed()
    ensures Validate(p, isUuid) == Err(InvalidEtag) <==> p.etag.Some? && !IsStrongEtag(p.etag.value)
    ensures p.operation == Delete && (p.etag.Some? ==> IsStrongEtag(p.etag.value)) ==> Validate(p, isUuid).Ok?
    ensures p.operation != Delete && (p.etag.Some? ==> IsStrongEtag(p.etag.value)) ==>
      (Validate(p, isUuid) == Err(InvalidPayload) <==>
        p.payload.value.fields.Keys != {"dimensions"} || !p.payload.value.fields["dimensions"].Obj?)
  {
    hide IsStrongEtag, Shaped, Selected, AllSlots, SLOT_NAMES;
  }

  // ------------------------------------------------------------------ the validating loops

  ghost predicate ShapedSoFar(
    dims: map<string, Json>, todo: set<string>, written: map<string, Written>, restoring: bool, isUuid: string -> bool)
  {
    && todo <= dims.Keys && written.Keys == dims.Keys - todo
    && forall k :: k in written ==> Shape(k, dims[k], restoring, isUuid) == Some(written[k])
  }

  /** Reads one selection after another, in whatever order the object yields them. */
  method ReadShapes(dims: map<string, Json>, restoring: bool, isUuid: string -> bool)
    returns (r: Option<map<string, Written>>)
    ensures r.Some? <==> Shaped(dims, restoring, isUuid)
    ensures r.Some? ==> ShapedSoFar(dims, {}, r.value, restoring, isUuid)
  {
    hide Shape;
    var todo: set<string>, written: map<string, Written> := dims.Keys, map[];
    while todo != {}
      invariant ShapedSoFar(dims, todo, written, restoring, isUuid)
      decreases todo
    {
      var k :| k in todo;
      var shape := Shape(k, dims[k], restoring, isUuid);
      if shape.None? { return None; }
      written, todo := written[k := shape.value], todo - {k};
    }
    return Some(written);
  }

  ghost predicate SelectedSoFar(
    dims: map<string, Json>, done: seq<string>, selections: map<string, Selection>, restoring: bool,
    isUuid: string -> bool)
    requires Shaped(dims, restoring, isUuid)
  {
    && (forall k :: k in selections <==> k in dims && k in done)
    && (forall k :: k in selections ==> k in SLOT_NAMES && Selected(dims, restoring, isUuid, k) == Some(selections[k]))
  }

  lemma SelectNext(
      dims: map<string, Json>, done: seq<string>, selections: map<string, Selection>, restoring: bool,
      isUuid: string -> bool, k: string)
    requires Shaped(dims, restoring, isUuid) && SelectedSoFar(dims, done, selections, restoring, isUuid)
    requires k in SLOT_NAMES
    ensures k !in dims ==> SelectedSoFar(dims, done + [k], selections, restoring, isUuid)
    ensures k in dims && Selected(dims, restoring, isUuid, k).Some?
      ==> SelectedSoFar(dims, done + [k], selections[k := Selected(dims, restoring, isUuid, k).value],
                        restoring, isUuid)
  {
    hide Selected, Shape;
  }

  lemma SelectedAll(
      dims: map<string, Json>, selections: map<string, Selection>, restoring: bool, isUuid: string -> bool)
    requires forall k :: k in dims ==> k in SLOT_NAMES
    requires Shaped(dims, restoring, isUuid) && SelectedSoFar(dims, SLOT_NAMES, selections, restoring, isUuid)
    ensures Slots(dims, restoring, isUuid) == Ok(selections)
  {
    hide Selected, Shape, SLOT_NAMES;
    assert forall k :: k in dims ==> Selected(dims, restoring, isUuid, k) == Some(selections[k]);
    assert Slots(dims, restoring, isUuid).Ok?;
    assert Slots(dims, restoring, isUuid).value == selections;
  }

  /** Normalizes the slots in composition order, after every shape has been read. */
  method ReadSlots(dims: map<string, Json>, restoring: bool, isUuid: string -> bool)
    returns (r: Result<map<string, Selection>, ReviewError>)
    requires forall k :: k in dims ==> k in SLOT_NAMES
    ensures r == Slots(dims, restoring, isUuid)
  {
    hide Shape, Normalized, SlotNamed, SelectedSoFar, SLOT_NAMES;
    var shapes := ReadShapes(dims, restoring, isUuid);
    if shapes.None? { return Err(InvalidSelection); }
    var written := shapes.value;
    var selections: map<string, Selection> := map[];
    NoneSelected(dims, restoring, isUuid);
    for i := 0 to |SLOT_NAMES|
      invariant SelectedSoFar(dims, SLOT_NAMES[..i], selections, restoring, isUuid)
    {
      var k := SLOT_NAMES[i];
      SelectNext(dims, SLOT_NAMES[..i], selections, restoring, isUuid, k);
      assert SLOT_NAMES[..i + 1] == SLOT_NAMES[..i] + [k];
      if k in dims {
        var selection := Normalized(SlotNamed(k), written[k]);
        if selection.None? {
          assert Selected(dims, restoring, isUuid, k).None?;
          return Err(InvalidDimension);
        }
        selections := selections[k := selection.value];
      }
    }
    assert SLOT_NAMES[..|SLOT_NAMES|] == SLOT_NAMES;
    SelectedAll(dims, selections, restoring, isUuid);
    return Ok(selections);
  }

  lemma NoneSelected(dims: map<string, Json>, restoring: bool, isUuid: string -> bool)
    requires Shaped(dims, restoring, isUuid)
    ensures SelectedSoFar(dims, SLOT_NAMES[..0], map[], restoring, isUuid)
  {
  }

  method ValidateProposal(p: Proposal, isUuid: string -> bool)
    returns (r: Result<map<string, Selection>, ReviewError>)
    requires p.WellFormed()
    ensures r == Validate(p, isUuid)
  {
    if p.etag.Some? && !IsStrongEtag(p.etag.value) { return Err(InvalidEtag); }
    if p.operation == Delete { return Ok(map[]); }
    var fields := p.payload.value.fields;
    if fields.Keys != {"dimensions"} || !fields["dimensions"].Obj? { return Err(InvalidPayload); }
    var dims := fields["dimensions"].fields;
    if dims == map[] || exists k :: k in dims && k !in SLOT_NAMES { return Err(InvalidSlots); }
    if p.operation != ReferenceUpdate && !AllSlots(dims.Keys) { return Err(InvalidSlots); }
    r := ReadSlots(dims, p.operation == Restore, isUuid);
  }
}
