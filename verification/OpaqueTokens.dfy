/**
 Opaque credentials: 256 random bits written in unpadded base64url (sections 3.5
 and 5 of RFC 4648). The server re-encodes what it decoded; the browser tests a
 pattern. Both must accept the same strings.
 */
module OpaqueTokens {
  import opened Wrappers

  type Byte = b: int | 0 <= b < 256
  type Sextet = x: int | 0 <= x < 64

  const TOKEN_LENGTH := 43
  const RAW_LENGTH := 32

  // --------------------------------------------------------------- alphabet

  predicate InAlphabet(c: char) {
    'A' <= c <= 'Z' || 'a' <= c <= 'z' || '0' <= c <= '9' || c == '-' || c == '_'
  }

  function Symbol(x: Sextet): (c: char)
    ensures InAlphabet(c) && Index(c) == x
  {
    if x < 26 then ('A' as int + x) as char
    else if x < 52 then ('a' as int + x - 26) as char
    else if x < 62 then ('0' as int + x - 52) as char
    else if x == 62 then '-' else '_'
  }

  function Index(c: char): (x: Sextet)
    requires InAlphabet(c)
  {
    if 'A' <= c <= 'Z' then c as int - 'A' as int
    else if 'a' <= c <= 'z' then c as int - 'a' as int + 26
    else if '0' <= c <= '9' then c as int - '0' as int + 52
    else if c == '-' then 62 else 63
  }

  lemma SymbolOfIndex(c: char)
    requires InAlphabet(c)
    ensures Symbol(Index(c)) == c
  {
  }

  function Write(xs: seq<Sextet>): (s: string)
    ensures |s| == |xs|
    ensures forall i :: 0 <= i < |xs| ==> s[i] == Symbol(xs[i])
  {
    seq(|xs|, i requires 0 <= i < |xs| => Symbol(xs[i]))
  }

  function Read(s: string): (xs: seq<Sextet>)
    requires forall i :: 0 <= i < |s| ==> InAlphabet(s[i])
    ensures |xs| == |s|
    ensures forall i :: 0 <= i < |s| ==> xs[i] == Index(s[i])
  {
    seq(|s|, i requires 0 <= i < |s| => Index(s[i]))
  }

  lemma WriteThenRead(xs: seq<Sextet>)
    ensures Read(Write(xs)) == xs
  {
  }

  lemma ReadThenWrite(s: string)
    requires forall i :: 0 <= i < |s| ==> InAlphabet(s[i])
    ensures Write(Read(s)) == s
  {
    forall i | 0 <= i < |s| ensures Write(Read(s))[i] == s[i] {
      SymbolOfIndex(s[i]);
    }
  }

  // --------------------------------------------------------- bytes to groups

  // A group is three bytes x, y, z, or the four sextets a, b, c, d.
  function SextetA(x: Byte): Sextet { x / 4 }
  function SextetB(x: Byte, y: Byte): Sextet { x % 4 * 16 + y / 16 }
  function SextetC(y: Byte, z: Byte): Sextet { y % 16 * 4 + z / 64 }
  function SextetD(z: Byte): Sextet { z % 64 }

  function ByteX(a: Sextet, b: Sextet): Byte { a * 4 + b / 16 }
  function ByteY(b: Sextet, c: Sextet): Byte { b % 16 * 16 + c / 4 }
  function ByteZ(c: Sextet, d: Sextet): Byte { c % 4 * 64 + d }

  lemma BytesRoundTrip(x: Byte, y: Byte, z: Byte)
    ensures ByteX(SextetA(x), SextetB(x, y)) == x
    ensures ByteY(SextetB(x, y), SextetC(y, z)) == y
    ensures ByteZ(SextetC(y, z), SextetD(z)) == z
  {
  }

  lemma SextetsRoundTrip(a: Sextet, b: Sextet, c: Sextet, d: Sextet)
    ensures SextetA(ByteX(a, b)) == a
    ensures SextetB(ByteX(a, b), ByteY(b, c)) == b
    ensures SextetC(ByteY(b, c), ByteZ(c, d)) == c
    ensures SextetD(ByteZ(c, d)) == d
    ensures SextetB(ByteX(a, b), 0) == b <==> b % 16 == 0
    ensures SextetC(ByteY(b, c), 0) == c <==> c % 4 == 0
  {
  }

  /** Unpadded encoding: three bytes make four sextets, a short tail is filled with zero bits. */
  function Encode(raw: seq<Byte>): (xs: seq<Sextet>)
  {
    if |raw| == 0 then []
    else if |raw| == 1 then [SextetA(raw[0]), SextetB(raw[0], 0)]
    else if |raw| == 2 then [SextetA(raw[0]), SextetB(raw[0], raw[1]), SextetC(raw[1], 0)]
    else EncodeGroup(raw) + Encode(raw[3..])
  }

  function EncodeGroup(raw: seq<Byte>): (xs: seq<Sextet>)
    requires |raw| >= 3
    ensures |xs| == 4
  {
    [SextetA(raw[0]), SextetB(raw[0], raw[1]), SextetC(raw[1], raw[2]), SextetD(raw[2])]
  }

  /** Decoding drops the bits that do not fill a byte; one leftover symbol is an error. */
  function Decode(xs: seq<Sextet>): (r: Option<seq<Byte>>)
  {
    if |xs| == 0 then Some([])
    else if |xs| == 1 then None
    else if |xs| == 2 then Some([ByteX(xs[0], xs[1])])
    else if |xs| == 3 then Some([ByteX(xs[0], xs[1]), ByteY(xs[1], xs[2])])
    else
      match Decode(xs[4..])
      case None => None
      case Some(rest) => Some(DecodeGroup(xs) + rest)
  }

  function DecodeGroup(xs: seq<Sextet>): (raw: seq<Byte>)
    requires |xs| >= 4
    ensures |raw| == 3
  {
    [ByteX(xs[0], xs[1]), ByteY(xs[1], xs[2]), ByteZ(xs[2], xs[3])]
  }

  lemma OneByteRoundTrip(x: Byte)
    ensures Decode(Encode([x])) == Some([x])
  {
    var a, b := SextetA(x), SextetB(x, 0);
    assert ByteX(a, b) == x by { BytesRoundTrip(x, 0, 0); }
    assert Encode([x]) == [a, b];
  }

  lemma TwoBytesRoundTrip(x: Byte, y: Byte)
    ensures Decode(Encode([x, y])) == Some([x, y])
  {
    var a, b, c := SextetA(x), SextetB(x, y), SextetC(y, 0);
    assert ByteX(a, b) == x && ByteY(b, c) == y by { BytesRoundTrip(x, y, 0); }
    assert Encode([x, y]) == [a, b, c];
  }

  lemma GroupRoundTrip(raw: seq<Byte>, rest: seq<Sextet>)
    requires |raw| >= 3
    ensures DecodeGroup(EncodeGroup(raw) + rest) == raw[..3]
  {
    BytesRoundTrip(raw[0], raw[1], raw[2]);
  }

  lemma {:induction false} EncodeThenDecode(raw: seq<Byte>)
    ensures Decode(Encode(raw)) == Some(raw)
  {
    if |raw| == 1 {
      OneByteRoundTrip(raw[0]);
      assert raw == [raw[0]];
    } else if |raw| == 2 {
      TwoBytesRoundTrip(raw[0], raw[1]);
      assert raw == [raw[0], raw[1]];
    } else if |raw| >= 3 {
      var rest := Encode(raw[3..]);
      EncodeThenDecode(raw[3..]);
      GroupRoundTrip(raw, rest);
      assert (EncodeGroup(raw) + rest)[4..] == rest;
      assert raw == raw[..3] + raw[3..];
    }
  }

  lemma {:induction false} EncodedLength(raw: seq<Byte>, groups: nat, extra: nat)
    requires |raw| == groups * 3 + extra && extra < 3
    ensures |Encode(raw)| == groups * 4 + if extra == 0 then 0 else extra + 1
    decreases groups
  {
    if groups > 0 { EncodedLength(raw[3..], groups - 1, extra); }
  }

  /** Four symbols carry three bytes; a short last group carries one byte fewer than its symbols. */
  lemma {:induction false} DecodedLength(xs: seq<Sextet>, groups: nat, extra: nat)
    requires |xs| == groups * 4 + extra && extra < 4 && extra != 1
    ensures Decode(xs).Some?
    ensures |Decode(xs).value| == groups * 3 + if extra == 0 then 0 else extra - 1
    decreases groups
  {
    if groups > 0 { DecodedLength(xs[4..], groups - 1, extra); }
  }

  /** What the last group leaves over is zero, so no decoded bit is lost. */
  predicate ZeroTail(xs: seq<Sextet>)
  {
    if |xs| >= 4 then ZeroTail(xs[4..])
    else if |xs| == 3 then xs[2] % 4 == 0
    else if |xs| == 2 then xs[1] % 16 == 0
    else true
  }

  lemma {:induction false} ZeroTailLast(xs: seq<Sextet>, groups: nat)
    requires |xs| == groups * 4 + 3
    ensures ZeroTail(xs) <==> xs[|xs| - 1] % 4 == 0
    decreases groups
  {
    if groups > 0 { ZeroTailLast(xs[4..], groups - 1); }
  }

  lemma TwoSextetsRoundTrip(a: Sextet, b: Sextet)
    ensures Decode([a, b]).Some?
    ensures Encode(Decode([a, b]).value) == [a, b] <==> b % 16 == 0
  {
    SextetsRoundTrip(a, b, 0, 0);
  }

  lemma ThreeSextetsRoundTrip(a: Sextet, b: Sextet, c: Sextet)
    ensures Decode([a, b, c]).Some?
    ensures Encode(Decode([a, b, c]).value) == [a, b, c] <==> c % 4 == 0
  {
    SextetsRoundTrip(a, b, c, 0);
    hide ByteX, ByteY, SextetA, SextetB, SextetC;
    var x, y := ByteX(a, b), ByteY(b, c);
    assert Decode([a, b, c]) == Some([x, y]);
    assert Encode([x, y]) == [SextetA(x), SextetB(x, y), SextetC(y, 0)];
  }

  lemma SextetGroupRoundTrip(xs: seq<Sextet>, rest: seq<Byte>)
    requires |xs| >= 4
    ensures EncodeGroup(DecodeGroup(xs) + rest) == xs[..4]
  {
    SextetsRoundTrip(xs[0], xs[1], xs[2], xs[3]);
  }

  lemma {:induction false} DecodeThenEncode(xs: seq<Sextet>)
    requires Decode(xs).Some?
    ensures Encode(Decode(xs).value) == xs <==> ZeroTail(xs)
  {
    if |xs| == 2 {
      assert xs == [xs[0], xs[1]];
      TwoSextetsRoundTrip(xs[0], xs[1]);
    } else if |xs| == 3 {
      assert xs == [xs[0], xs[1], xs[2]];
      ThreeSextetsRoundTrip(xs[0], xs[1], xs[2]);
    } else if |xs| >= 4 {
      var rest := Decode(xs[4..]).value;
      DecodeThenEncode(xs[4..]);
      SextetGroupRoundTrip(xs, rest);
      var raw := DecodeGroup(xs) + rest;
      assert raw[3..] == rest;
      assert Encode(raw) == xs[..4] + Encode(rest);
      assert Encode(raw)[4..] == Encode(rest);
      assert xs == xs[..4] + xs[4..];
    }
  }

  // ------------------------------------------------- the encoding, by its definition

  /** The URL-safe alphabet in the order of its values. */
  lemma AlphabetInOrder(x: Sextet)
    ensures x < 26 ==> Symbol(x) == "ABCDEFGHIJKLMNOPQRSTUVWXYZ"[x]
    ensures 26 <= x < 52 ==> Symbol(x) == "abcdefghijklmnopqrstuvwxyz"[x - 26]
    ensures 52 <= x ==> Symbol(x) == "0123456789-_"[x - 52]
  {
    if x < 26 { UpperInOrder(x); } else if x < 52 { LowerInOrder(x - 26); } else { RestInOrder(x - 52); }
  }

  lemma UpperInOrder(x: nat)
    requires x < 26
    ensures "ABCDEFGHIJKLMNOPQRSTUVWXYZ"[x] == ('A' as int + x) as char
  {
    var s := "ABCDEFGHIJKLMNOPQRSTUVWXYZ";
    if x < 13 { assert s[x] == "ABCDEFGHIJKLM"[x]; } else { assert s[x] == "NOPQRSTUVWXYZ"[x - 13]; }
  }

  lemma LowerInOrder(x: nat)
    requires x < 26
    ensures "abcdefghijklmnopqrstuvwxyz"[x] == ('a' as int + x) as char
  {
    var s := "abcdefghijklmnopqrstuvwxyz";
    if x < 13 { assert s[x] == "abcdefghijklm"[x]; } else { assert s[x] == "nopqrstuvwxyz"[x - 13]; }
  }

  lemma RestInOrder(x: nat)
    requires x < 12
    ensures "0123456789-_"[x] == if x < 10 then ('0' as int + x) as char else if x == 10 then '-' else '_'
  {
  }

  /** Three bytes and their four symbols are the same 24-bit number, most significant first. */
  predicate SameBits(x: int, y: int, z: int, a: int, b: int, c: int, d: int) {
    65536 * x + 256 * y + z == 262144 * a + 4096 * b + 64 * c + d
  }

  lemma GroupBits(x: Byte, y: Byte, z: Byte)
    ensures SameBits(x, y, z, SextetA(x), SextetB(x, y), SextetC(y, z), SextetD(z))
  {
  }

  /** Every full group of an encoding has the bits of its three bytes. */
  lemma {:induction false} EncodingKeepsBits(raw: seq<Byte>, i: nat)
    requires 3 * i + 2 < |raw|
    ensures var xs := Encode(raw);
      4 * i + 3 < |xs|
      && SameBits(raw[3 * i], raw[3 * i + 1], raw[3 * i + 2], xs[4 * i], xs[4 * i + 1], xs[4 * i + 2], xs[4 * i + 3])
  {
    if i == 0 {
      GroupBits(raw[0], raw[1], raw[2]);
    } else {
      EncodingKeepsBits(raw[3..], i - 1);
    }
  }

  /** The last two bytes of a token's 32 take three symbols, padded with two zero bits. */
  lemma {:induction false} EncodingPadsBits(raw: seq<Byte>, groups: nat)
    requires |raw| == 3 * groups + 2
    ensures var xs := Encode(raw);
      |xs| == 4 * groups + 3
      && SameBits(raw[3 * groups], raw[3 * groups + 1], 0, xs[4 * groups], xs[4 * groups + 1], xs[4 * groups + 2], 0)
    decreases groups
  {
    if groups == 0 {
      GroupBits(raw[0], raw[1], 0);
    } else {
      EncodingPadsBits(raw[3..], groups - 1);
    }
  }

  // ------------------------------------------------------- token acceptance

  predicate WellSpelled(s: string) {
    |s| == TOKEN_LENGTH && forall i :: 0 <= i < |s| ==> InAlphabet(s[i])
  }

  /** The server's check: spelled right, decodes to 256 bits, and re-encodes to itself. */
  predicate IsToken(s: string) {
    WellSpelled(s) &&
    match Decode(Read(s))
    case None => false
    case Some(raw) => |raw| == RAW_LENGTH && Write(Encode(raw)) == s
  }

  const FINAL_SYMBOLS := "AEIMQUYcgkosw048"

  /** The browser's pattern for a link token. */
  predicate MatchesLinkPattern(s: string) {
    |s| == TOKEN_LENGTH
    && (forall i :: 0 <= i < TOKEN_LENGTH - 1 ==> InAlphabet(s[i]))
    && s[TOKEN_LENGTH - 1] in FINAL_SYMBOLS
  }

  /** Generation refuses a random source that returns the wrong amount. */
  function Generate(sample: seq<Byte>): (r: Option<string>) {
    if |sample| == RAW_LENGTH then Some(Write(Encode(sample))) else None
  }

  lemma FinalSymbols(c: char)
    ensures c in FINAL_SYMBOLS <==> InAlphabet(c) && Index(c) % 4 == 0
  {
    FinalSymbolsAreEveryFourth();
    hide FINAL_SYMBOLS, Symbol, Index;
    if InAlphabet(c) && Index(c) % 4 == 0 {
      SymbolOfIndex(c);
      assert FINAL_SYMBOLS[Index(c) / 4] == c;
    }
    forall k | 0 <= k < 16 ensures InAlphabet(FINAL_SYMBOLS[k]) && Index(FINAL_SYMBOLS[k]) == 4 * k {
      assert FINAL_SYMBOLS[k] == Symbol(4 * k);
    }
  }

  lemma FinalSymbolsAreEveryFourth()
    ensures |FINAL_SYMBOLS| == 16 && forall k :: 0 <= k < 16 ==> FINAL_SYMBOLS[k] == Symbol(4 * k)
  {
  }

  lemma CanonicalSpelling(s: string, xs: seq<Sextet>)
    requires WellSpelled(s) && xs == Read(s)
    ensures IsToken(s) <==> xs[|s| - 1] % 4 == 0
  {
    DecodedLength(xs, 10, 3);
    var again := Encode(Decode(xs).value);
    assert again == xs <==> xs[|xs| - 1] % 4 == 0 by {
      ZeroTailLast(xs, 10);
      DecodeThenEncode(xs);
    }
    assert Write(again) == s <==> again == xs by {
      ReadThenWrite(s);
      WriteThenRead(again);
    }
  }

  /** Both checks accept the same strings. */
  lemma ServerAndBrowserAgree(s: string)
    ensures IsToken(s) <==> MatchesLinkPattern(s)
  {
    if |s| == TOKEN_LENGTH {
      FinalSymbols(s[TOKEN_LENGTH - 1]);
      if WellSpelled(s) { CanonicalSpelling(s, Read(s)); }
    }
  }

  lemma EncodingIsToken(raw: seq<Byte>)
    requires |raw| == RAW_LENGTH
    ensures IsToken(Write(Encode(raw))) && Decode(Read(Write(Encode(raw)))) == Some(raw)
  {
    var xs := Encode(raw);
    assert |xs| == TOKEN_LENGTH by { EncodedLength(raw, 10, 2); }
    assert Decode(xs) == Some(raw) by { EncodeThenDecode(raw); }
    WriteThenRead(xs);
  }

  /** The accepted strings are exactly the encodings of 32-byte strings. */
  lemma TokensAreEncodings(s: string)
    ensures IsToken(s) <==> exists raw: seq<Byte> :: Spells(raw, s)
  {
    if IsToken(s) {
      assert Spells(Decode(Read(s)).value, s);
    }
    if exists raw: seq<Byte> :: Spells(raw, s) {
      var raw: seq<Byte> :| Spells(raw, s);
      EncodingIsToken(raw);
    }
  }

  predicate Spells(raw: seq<Byte>, s: string) { |raw| == RAW_LENGTH && Write(Encode(raw)) == s }

  /** Generation and decoding undo each other, so every sample has its own token. */
  lemma GenerateThenDecode(sample: seq<Byte>)
    ensures Generate(sample).Some? <==> |sample| == RAW_LENGTH
    ensures Generate(sample).Some? ==>
              IsToken(Generate(sample).value) && Decode(Read(Generate(sample).value)) == Some(sample)
  {
    if |sample| == RAW_LENGTH { EncodingIsToken(sample); }
  }

  lemma DecodeThenGenerate(s: string)
    requires IsToken(s)
    ensures Generate(Decode(Read(s)).value) == Some(s)
  {
  }
}
