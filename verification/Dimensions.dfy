/** Dimension codes, typed values and the pure transitions of one Dimension. */
module Dimensions {
  import opened Wrappers
  import opened Text
  import StringValues

  type Id = nat
  type Time = int

  // The eight typed tables, numbered in composition order.
  type Slot = s: nat | s < 8
  const SLOTS: nat := 8
  const COMPANY: Slot := 0
  const BRAND: Slot := 1
  const MODEL: Slot := 2
  const CATEGORY: Slot := 3
  const YEAR: Slot := 4
  const MEMORY: Slot := 5
  const NETWORK: Slot := 6
  const COUNTRY: Slot := 7

  // ------------------------------------------------------------------ codes

  datatype CodeError = CodeNotAscii | CodeHasSpace | CodeMalformed | CodeReserved

  predicate ValidCode(c: string) {
    1 <= |c| <= 32
    && (forall i :: 0 <= i < |c| ==> IsUpperAlnum(c[i]))
    && exists i :: 0 <= i < |c| && c[i] != 'N'
  }

  /** Accepts exactly the strings whose upper-case form is a valid code. */
  function ParseCode(raw: string): (r: Result<string, CodeError>)
    ensures r.Ok? ==> r.value == Upper(raw) && ValidCode(r.value)
    ensures (forall i :: 0 <= i < |raw| ==> IsAscii(raw[i])) ==> (r.Ok? <==> ValidCode(Upper(raw)))
  {
    var code := Upper(raw);
    if exists i :: 0 <= i < |raw| && !IsAscii(raw[i]) then Err(CodeNotAscii)
    else if exists i :: 0 <= i < |raw| && raw[i] == ' ' then
      assert forall i :: 0 <= i < |raw| && raw[i] == ' ' ==> !IsUpperAlnum(code[i]);
      Err(CodeHasSpace)
    else if !(1 <= |code| <= 32) || exists i :: 0 <= i < |code| && !IsUpperAlnum(code[i]) then
      Err(CodeMalformed)
    else if forall i :: 0 <= i < |code| ==> code[i] == 'N' then Err(CodeReserved)
    else Ok(code)
  }

  // ----------------------------------------------------------------- values

  datatype Unit = MB | GB | TB | PB

  function Multiplier(u: Unit): nat {
    match u case MB => 1 case GB => 1_000 case TB => 1_000_000 case PB => 1_000_000_000
  }

  datatype Value =
    | TextValue(text: string)
    | YearValue(year: int)
    | MemoryValue(amount: int, unit: Unit)
    | GenerationValue(generation: int)
  {
    function Capacity(): int
      requires MemoryValue?
    {
      amount * Multiplier(unit)
    }
  }

  predicate ValidValue(slot: Slot, v: Value) {
    match v
    case TextValue(t) =>
      (slot == COMPANY || slot == BRAND || slot == MODEL || slot == CATEGORY || slot == COUNTRY)
      && StringValues.IsNormal(t)
    case YearValue(y) => slot == YEAR && 2000 <= y <= 2999
    case MemoryValue(a, _) => slot == MEMORY && 1 <= a <= 2_147_483_647
    case GenerationValue(g) => slot == NETWORK && 1 <= g <= 5
  }

  /** Two memory values are the same value when their capacities agree. */
  predicate SameValue(a: Value, b: Value) {
    if a.MemoryValue? && b.MemoryValue? then a.Capacity() == b.Capacity() else a == b
  }

  // ------------------------------------------------------------- transitions

  datatype DimensionError = AlreadyDeleted | NotDeletedYet | TimeGoesBack

  datatype Dimension = Dimension(
    id: Id,
    code: string,
    value: Value,
    version: int,
    createdAt: Time,
    updatedAt: Time,
    deletedAt: Option<Time>)
  {
    predicate Valid() {
      version >= 1
      && createdAt <= updatedAt
      && (version == 1 ==> updatedAt == createdAt)
      && (deletedAt.Some? ==> createdAt <= deletedAt.value <= updatedAt)
    }

    predicate IsDeleted() { deletedAt.Some? }

    function Delete(at: Time): (r: Result<Dimension, DimensionError>)
      ensures Valid() && r.Ok? ==> r.value.Valid()
    {
      if IsDeleted() then Err(AlreadyDeleted) else Transition(Some(at), at)
    }

    function Restore(at: Time): (r: Result<Dimension, DimensionError>)
      ensures Valid() && r.Ok? ==> r.value.Valid()
    {
      if !IsDeleted() then Err(NotDeletedYet) else Transition(None, at)
    }

    function Transition(deleted: Option<Time>, at: Time): (r: Result<Dimension, DimensionError>)
      requires deleted.Some? ==> deleted.value == at
    {
      if at < updatedAt then Err(TimeGoesBack)
      else Ok(this.(version := version + 1, updatedAt := at, deletedAt := deleted))
    }

    /** An omitted or equivalent value keeps the stored representation. */
    function NextValue(proposed: Option<Value>): (v: Value)
      ensures v == value || (proposed == Some(v) && !SameValue(value, v))
    {
      if proposed.None? || SameValue(value, proposed.value) then value else proposed.value
    }

    function NextCode(proposed: Option<string>): string {
      if proposed.None? then code else proposed.value
    }

    function Change(newCode: Option<string>, newValue: Option<Value>, at: Time)
      : (r: Result<Dimension, DimensionError>)
      ensures Valid() && r.Ok? ==> r.value.Valid()
    {
      var c, v := NextCode(newCode), NextValue(newValue);
      if c == code && SameValue(value, v) then Ok(this)
      else if at < updatedAt then Err(TimeGoesBack)
      else Ok(this.(code := c, value := v, version := version + 1, updatedAt := at))
    }
  }

  /** 1000 MB are a GB, 1000 GB a TB, 1000 TB a PB; values of other types are the same only when equal. */
  lemma SameValueByUnits(a: int, b: int, v: Value, w: Value)
    ensures SameValue(MemoryValue(a, GB), MemoryValue(b, MB)) <==> 1000 * a == b
    ensures SameValue(MemoryValue(a, TB), MemoryValue(b, GB)) <==> 1000 * a == b
    ensures SameValue(MemoryValue(a, PB), MemoryValue(b, TB)) <==> 1000 * a == b
    ensures forall u :: SameValue(MemoryValue(a, u), MemoryValue(b, u)) <==> a == b
    ensures !v.MemoryValue? || !w.MemoryValue? ==> (SameValue(v, w) <==> v == w)
  {
    forall u ensures SameValue(MemoryValue(a, u), MemoryValue(b, u)) <==> a == b {
      SameMultiple(a, b, Multiplier(u));
    }
  }

  lemma SameMultiple(a: int, b: int, m: int)
    requires m > 0
    ensures a * m == b * m <==> a == b
  {
    if a < b { assert (b - a) * m > 0; }
    if b < a { assert (a - b) * m > 0; }
  }

  lemma SameValueIsEquivalence(a: Value, b: Value, c: Value)
    ensures SameValue(a, a)
    ensures SameValue(a, b) ==> SameValue(b, a)
    ensures SameValue(a, b) && SameValue(b, c) ==> SameValue(a, c)
  {
  }
}
