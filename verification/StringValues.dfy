/**
 String Dimension values. The source cleans an input in several passes; the
 reference form reads the same input as words separated by runs of spaces and
 underscores.
 */
module StringValues {
  import opened Wrappers
  import opened Text

  datatype ValueError = HasControl | NotAscii | Malformed

  // ---------------------------------------------------------------- passes

  function StripLeft(s: string, c: char): (r: string)
    ensures |r| <= |s|
  {
    if s != [] && s[0] == c then StripLeft(s[1..], c) else s
  }

  function StripRight(s: string, c: char): (r: string)
    ensures |r| <= |s|
  {
    if s != [] && s[|s| - 1] == c then StripRight(s[..|s| - 1], c) else s
  }

  function Strip(s: string, c: char): string { StripRight(StripLeft(s, c), c) }

  /** Substitutes one underscore for every maximal run of `c`. */
  function CollapseRuns(s: string, c: char): string
    decreases |s|
  {
    if s == [] then []
    else if s[0] == c then "_" + CollapseRuns(StripLeft(s[1..], c), c)
    else [s[0]] + CollapseRuns(s[1..], c)
  }

  function Passes(s: string): string {
    Strip(CollapseRuns(CollapseRuns(Upper(Strip(s, ' ')), ' '), '_'), '_')
  }

  /** The pattern of upper-case words joined by single underscores, after its first letter. */
  predicate MatchesTail(s: string) {
    s == []
    || (IsUpperAlnum(s[0]) && MatchesTail(s[1..]))
    || (s[0] == '_' && |s| > 1 && IsUpperAlnum(s[1]) && MatchesTail(s[2..]))
  }

  predicate MatchesPattern(s: string) {
    s != [] && IsUpperAlnum(s[0]) && MatchesTail(s[1..])
  }

  predicate IsNormal(s: string) { 1 <= |s| <= 128 && MatchesPattern(s) }

  function Normalize(s: string): (r: Result<string, ValueError>) {
    if exists c :: c in s && IsControl(c) then Err(HasControl)
    else if exists c :: c in s && !IsAscii(c) then Err(NotAscii)
    else if IsNormal(Passes(s)) then Ok(Passes(s)) else Err(Malformed)
  }

  // ------------------------------------------------------------- reference

  predicate IsSeparator(c: char) { c == ' ' || c == '_' }

  /** The maximal separator-free stretches of `s`, in order. */
  function Words(s: string): (ws: seq<string>)
    ensures s != [] && !IsSeparator(s[0]) ==> ws != []
  {
    if s == [] then []
    else if IsSeparator(s[0]) then Words(s[1..])
    else if |s| == 1 || IsSeparator(s[1]) then [[s[0]]] + Words(s[1..])
    else var rest := Words(s[1..]); [[s[0]] + rest[0]] + rest[1..]
  }

  function JoinWords(ws: seq<string>): string {
    if ws == [] then [] else if |ws| == 1 then ws[0] else ws[0] + "_" + JoinWords(ws[1..])
  }

  function Reference(s: string): string { JoinWords(Words(Upper(s))) }

  // --------------------------------------------- no pass changes the words

  lemma {:induction false} StripLeftKeepsWords(s: string, c: char)
    requires IsSeparator(c)
    ensures Words(StripLeft(s, c)) == Words(s)
  {
    if s != [] && s[0] == c { StripLeftKeepsWords(s[1..], c); }
  }

  lemma {:induction false} TrailingSeparator(s: string, c: char)
    requires IsSeparator(c)
    ensures Words(s + [c]) == Words(s)
  {
    if s != [] {
      TrailingSeparator(s[1..], c);
      assert (s + [c])[1..] == s[1..] + [c];
    }
  }

  lemma {:induction false} StripRightKeepsWords(s: string, c: char)
    requires IsSeparator(c)
    ensures Words(StripRight(s, c)) == Words(s)
  {
    if s != [] && s[|s| - 1] == c {
      var t := s[..|s| - 1];
      assert s == t + [c];
      TrailingSeparator(t, c);
      StripRightKeepsWords(t, c);
    }
  }

  lemma {:induction false} CollapseKeepsWords(s: string, c: char)
    requires IsSeparator(c)
    ensures Words(CollapseRuns(s, c)) == Words(s)
    decreases |s|
  {
    if s == [] {
    } else if s[0] == c {
      var rest := StripLeft(s[1..], c);
      CollapseKeepsWords(rest, c);
      StripLeftKeepsWords(s[1..], c);
      assert ("_" + CollapseRuns(rest, c))[1..] == CollapseRuns(rest, c);
    } else {
      CollapseKeepsWords(s[1..], c);
      var t := CollapseRuns(s[1..], c);
      assert ([s[0]] + t)[1..] == t;
    }
  }

  lemma {:induction false} UpperCommutesWithStripLeft(s: string, c: char)
    requires c == ' '
    ensures Upper(StripLeft(s, c)) == StripLeft(Upper(s), c)
  {
    if s != [] && s[0] == c {
      UpperCommutesWithStripLeft(s[1..], c);
      assert Upper(s)[1..] == Upper(s[1..]);
    }
  }

  lemma {:induction false} UpperCommutesWithStripRight(s: string, c: char)
    requires c == ' '
    ensures Upper(StripRight(s, c)) == StripRight(Upper(s), c)
  {
    hide Upper;
    if s != [] {
      var front, u := s[..|s| - 1], Upper(s);
      UpperOfLast(s);
      if s[|s| - 1] == c {
        UpperCommutesWithStripRight(front, c);
        assert u[..|u| - 1] == Upper(front);
      }
    }
  }

  lemma UpperOfLast(s: string)
    requires s != []
    ensures Upper(s)[..|s| - 1] == Upper(s[..|s| - 1])
    ensures Upper(s)[|s| - 1] == ' ' <==> s[|s| - 1] == ' '
  {
    hide Upper;
    var front := s[..|s| - 1];
    var u, v := Upper(s), Upper(front);
    forall i | 0 <= i < |v| ensures u[i] == v[i] {
      assert front[i] == s[i];
    }
    assert u[..|s| - 1] == v;
    UpperKeepsSpace(s[|s| - 1]);
  }

  lemma UpperKeepsSpace(c: char)
    ensures UpperChar(c) == ' ' <==> c == ' '
  {
  }

  lemma PassesKeepWords(s: string)
    ensures Words(Passes(s)) == Words(Upper(s))
  {
    var stripped := Upper(Strip(s, ' '));
    UpperCommutesWithStripRight(StripLeft(s, ' '), ' ');
    UpperCommutesWithStripLeft(s, ' ');
    StripRightKeepsWords(StripLeft(Upper(s), ' '), ' ');
    StripLeftKeepsWords(Upper(s), ' ');
    var spaced := CollapseRuns(stripped, ' ');
    CollapseKeepsWords(stripped, ' ');
    var collapsed := CollapseRuns(spaced, '_');
    CollapseKeepsWords(spaced, '_');
    StripRightKeepsWords(StripLeft(collapsed, '_'), '_');
    StripLeftKeepsWords(collapsed, '_');
  }

  // ------------------------------- the passes leave single inner underscores

  /** Neither a space nor two adjacent underscores. */
  predicate Single(s: string) {
    (forall i :: 0 <= i < |s| ==> s[i] != ' ')
    && (forall i :: 0 <= i < |s| - 1 ==> s[i] == '_' ==> s[i + 1] != '_')
  }

  predicate Clean(s: string) {
    Single(s) && (s != [] ==> s[0] != '_' && s[|s| - 1] != '_')
  }

  lemma {:induction false} CollapseRemoves(s: string, c: char)
    ensures c == ' ' ==> ' ' !in CollapseRuns(s, c)
    ensures ' ' !in s ==> ' ' !in CollapseRuns(s, c)
    decreases |s|
  {
    if s == [] {
    } else if s[0] == c {
      var rest := StripLeft(s[1..], c);
      StripLeftIsSuffix(s[1..], c);
      CollapseRemoves(rest, c);
    } else {
      CollapseRemoves(s[1..], c);
    }
  }

  lemma {:induction false} StripLeftIsSuffix(s: string, c: char)
    ensures StripLeft(s, c) == s[|s| - |StripLeft(s, c)|..]
    ensures StripLeft(s, c) != [] ==> StripLeft(s, c)[0] != c
  {
    if s != [] && s[0] == c { StripLeftIsSuffix(s[1..], c); }
  }

  lemma {:induction false} StripRightIsPrefix(s: string, c: char)
    ensures StripRight(s, c) == s[..|StripRight(s, c)|]
    ensures StripRight(s, c) != [] ==> StripRight(s, c)[|StripRight(s, c)| - 1] != c
  {
    if s != [] && s[|s| - 1] == c { StripRightIsPrefix(s[..|s| - 1], c); }
  }

  lemma {:induction false} CollapseIsSingle(s: string)
    requires ' ' !in s
    ensures Single(CollapseRuns(s, '_'))
    ensures s != [] && s[0] != '_' ==> CollapseRuns(s, '_') != [] && CollapseRuns(s, '_')[0] == s[0]
    decreases |s|
  {
    if s == [] {
    } else if s[0] == '_' {
      var rest := StripLeft(s[1..], '_');
      StripLeftIsSuffix(s[1..], '_');
      CollapseIsSingle(rest);
    } else {
      CollapseIsSingle(s[1..]);
    }
  }

  lemma PassesAreClean(s: string)
    ensures Clean(Passes(s))
  {
    var stripped := Upper(Strip(s, ' '));
    var spaced := CollapseRuns(stripped, ' ');
    CollapseRemoves(stripped, ' ');
    var collapsed := CollapseRuns(spaced, '_');
    CollapseIsSingle(spaced);
    var left := StripLeft(collapsed, '_');
    StripLeftIsSuffix(collapsed, '_');
    StripRightIsPrefix(left, '_');
  }

  lemma {:induction false} CleanIsItsWords(s: string)
    requires Clean(s)
    ensures JoinWords(Words(s)) == s
    decreases |s|
  {
    if |s| <= 1 {
    } else if s[1] == '_' {
      var rest := s[2..];
      assert Clean(rest) && rest != [];
      CleanIsItsWords(rest);
      assert Words(s) == [[s[0]]] + Words(rest) by { assert s[1..][1..] == rest; }
      assert JoinWords(Words(s)) == [s[0]] + "_" + rest;
    } else {
      assert Clean(s[1..]);
      CleanIsItsWords(s[1..]);
      JoinPrepends(s[0], Words(s[1..]));
    }
  }

  lemma JoinPrepends(c: char, ws: seq<string>)
    requires ws != []
    ensures JoinWords([[c] + ws[0]] + ws[1..]) == [c] + JoinWords(ws)
  {
    if |ws| > 1 {
      assert ([[c] + ws[0]] + ws[1..])[1..] == ws[1..];
      assert [c] + ws[0] + "_" + JoinWords(ws[1..]) == [c] + (ws[0] + "_" + JoinWords(ws[1..]));
    }
  }

  /** The passes compute the word form, on every input string. */
  lemma PassesAreReference(s: string)
    ensures Passes(s) == Reference(s)
  {
    PassesKeepWords(s);
    PassesAreClean(s);
    CleanIsItsWords(Passes(s));
  }

  // ------------------------------------------------------------ acceptance

  predicate IsInputChar(c: char) { IsAlnum(c) || IsSeparator(c) }

  lemma {:induction false} TailOfClean(s: string)
    requires Single(s)
    requires s != [] ==> s[|s| - 1] != '_'
    ensures MatchesTail(s) <==> forall c :: c in s ==> IsUpperAlnum(c) || c == '_'
    decreases |s|
  {
    if s != [] {
      if s[0] == '_' {
        TailOfClean(s[2..]);
        assert s == [s[0], s[1]] + s[2..];
      } else {
        TailOfClean(s[1..]);
        assert s == [s[0]] + s[1..];
      }
    }
  }

  lemma PatternOfClean(s: string)
    requires Clean(s)
    ensures MatchesPattern(s) <==> s != [] && forall c :: c in s ==> IsUpperAlnum(c) || c == '_'
  {
    if s != [] {
      assert s == [s[0]] + s[1..];
      TailOfClean(s[1..]);
    }
  }

  /** Letters other than separators survive the word form. */
  lemma {:induction false} WordsKeepLetters(s: string, c: char)
    requires !IsSeparator(c)
    ensures c in s <==> exists w :: w in Words(s) && c in w
  {
    if s == [] {
    } else {
      WordsKeepLetters(s[1..], c);
      var rest := Words(s[1..]);
      assert s == [s[0]] + s[1..];
      if IsSeparator(s[0]) {
      } else if |s| == 1 || IsSeparator(s[1]) {
        assert [s[0]] in Words(s);
      } else {
        var first := [s[0]] + rest[0];
        assert Words(s) == [first] + rest[1..];
        assert first in Words(s);
        assert rest == [rest[0]] + rest[1..];
      }
    }
  }

  lemma {:induction false} JoinKeepsLetters(ws: seq<string>, c: char)
    requires c != '_'
    ensures c in JoinWords(ws) <==> exists w :: w in ws && c in w
  {
    if ws == [] {
    } else {
      JoinKeepsLetters(ws[1..], c);
      assert ws == [ws[0]] + ws[1..];
      assert ws[0] in ws;
    }
  }

  lemma ReferenceAlphabet(s: string)
    ensures (forall c :: c in Reference(s) ==> IsUpperAlnum(c) || c == '_')
       <==> (forall c :: c in s ==> IsInputChar(c))
  {
    var u := Upper(s);
    forall c | !IsSeparator(c) ensures c in Reference(s) <==> c in u {
      WordsKeepLetters(u, c);
      JoinKeepsLetters(Words(u), c);
    }
    PassesAreReference(s);
    PassesAreClean(s);
    assert ' ' !in Reference(s);
    if forall c :: c in Reference(s) ==> IsUpperAlnum(c) || c == '_' {
      forall c | c in s ensures IsInputChar(c) {
        var i :| 0 <= i < |s| && s[i] == c;
        assert u[i] == UpperChar(c);
        assert u[i] in u;
      }
    }
    if forall c :: c in s ==> IsInputChar(c) {
      forall c | c in Reference(s) ensures IsUpperAlnum(c) || c == '_' {
        if c != '_' {
          var i :| 0 <= i < |u| && u[i] == c;
          assert s[i] in s;
        }
      }
    }
  }

  /**
   Normalisation accepts exactly the strings over letters, digits, spaces and
   underscores whose word form has 1 to 128 characters, and returns that form.
   */
  lemma NormalizeMeaning(s: string)
    ensures Normalize(s).Ok? <==> (forall c :: c in s ==> IsInputChar(c)) && 1 <= |Reference(s)| <= 128
    ensures Normalize(s).Ok? ==> Normalize(s).value == Reference(s) && IsNormal(Reference(s))
  {
    PassesAreReference(s);
    PassesAreClean(s);
    PatternOfClean(Passes(s));
    ReferenceAlphabet(s);
    if forall c :: c in s ==> IsInputChar(c) {
      assert !exists c :: c in s && IsControl(c);
      assert !exists c :: c in s && !IsAscii(c);
    }
  }

  lemma {:induction false} NormalTail(s: string)
    requires MatchesTail(s)
    ensures forall c :: c in s ==> IsUpperAlnum(c) || c == '_'
    ensures Single(s) && (s != [] ==> s[|s| - 1] != '_')
    decreases |s|
  {
    if s == [] {
    } else if IsUpperAlnum(s[0]) {
      NormalTail(s[1..]);
      assert s == [s[0]] + s[1..];
    } else {
      NormalTail(s[2..]);
      assert s == [s[0], s[1]] + s[2..];
    }
  }

  lemma NormalIsClean(s: string)
    requires MatchesPattern(s)
    ensures Clean(s) && forall c :: c in s ==> IsUpperAlnum(c) || c == '_'
  {
    NormalTail(s[1..]);
    assert s == [s[0]] + s[1..];
  }

  /** A stored value is its own normal form, so reading it back changes nothing. */
  lemma NormalIsFixed(s: string)
    requires IsNormal(s)
    ensures Normalize(s) == Ok(s)
  {
    NormalIsClean(s);
    UpperIsStable(s);
    CleanIsItsWords(s);
    NormalizeMeaning(s);
  }

  lemma NormalizeIsIdempotent(s: string)
    requires Normalize(s).Ok?
    ensures Normalize(Normalize(s).value) == Normalize(s)
  {
    NormalIsFixed(Normalize(s).value);
  }
}
