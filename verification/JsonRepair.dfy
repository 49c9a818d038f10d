/** The string-aware JSON repairer: `repair_json` and its helpers.

    The repairer walks the text once, copying everything outside strings and
    rewriting, inside strings, what section 7 of RFC 8259 does not allow: raw
    control characters, unknown escapes and lone surrogate escapes.  A Dafny
    `char` is a Unicode scalar value, exactly as a Rust `char` is. */
module JsonRepair {
  import opened Wrappers

  predicate IsControl(c: char) {
    c as int <= 0x1f
  }

  predicate IsHexDigit(c: char) {
    '0' <= c <= '9' || 'a' <= c <= 'f' || 'A' <= c <= 'F'
  }

  predicate IsSimpleEscape(c: char) {
    c == '"' || c == '\\' || c == '/' || c == 'b' || c == 'f' || c == 'n' || c == 'r' || c == 't'
  }

  function HexValue(c: char): (v: nat)
    requires IsHexDigit(c)
    ensures v < 16
  {
    if c <= '9' then c as int - '0' as int
    else if c <= 'F' then c as int - 'A' as int + 10
    else c as int - 'a' as int + 10
  }

  /** The lower-case hexadecimal digit of a value below 16. */
  function HexDigit(v: nat): (c: char)
    requires v < 16
    ensures IsHexDigit(c) && HexValue(c) == v
  {
    "0123456789abcdef"[v]
  }

  /** The hexadecimal number written from `start` to `end`, when those are all digits. */
  function RadixValue(s: string, start: nat, end: nat): Option<nat>
    decreases end
  {
    if end <= start then Some(0)
    else if end > |s| || !IsHexDigit(s[end - 1]) then None
    else
      match RadixValue(s, start, end - 1)
      case None => None
      case Some(v) => Some(16 * v + HexValue(s[end - 1]))
  }

  lemma QuadValue(s: string, start: nat)
    ensures RadixValue(s, start, start + 4)
         == if start + 4 <= |s| && IsHexDigit(s[start]) && IsHexDigit(s[start + 1])
               && IsHexDigit(s[start + 2]) && IsHexDigit(s[start + 3])
            then Some(4096 * HexValue(s[start]) + 256 * HexValue(s[start + 1])
                      + 16 * HexValue(s[start + 2]) + HexValue(s[start + 3]))
            else None
  {
    assert RadixValue(s, start, start) == Some(0);
    var one := RadixValue(s, start, start + 1);
    var two := RadixValue(s, start, start + 2);
    var three := RadixValue(s, start, start + 3);
  }

  /** The four hexadecimal digits at `start`, as a number, when they are there. */
  function ParseHexQuad(s: string, start: nat): (q: Option<nat>)
    ensures q.Some? ==> start + 4 <= |s| && q.value < 0x10000
  {
    QuadValue(s, start);
    RadixValue(s, start, start + 4)
  }

  /** The same four characters read alike wherever they stand. */
  lemma SameQuad(a: string, i: nat, b: string, j: nat)
    requires i + 4 <= |a| && j + 4 <= |b| && a[i..i + 4] == b[j..j + 4]
    ensures ParseHexQuad(a, i) == ParseHexQuad(b, j)
  {
    QuadValue(a, i);
    QuadValue(b, j);
    var x, y := a[i..i + 4], b[j..j + 4];
    assert a[i] == x[0] && a[i + 1] == x[1] && a[i + 2] == x[2] && a[i + 3] == x[3];
    assert b[j] == y[0] && b[j + 1] == y[1] && b[j + 2] == y[2] && b[j + 3] == y[3];
  }

  predicate IsHighSurrogate(v: nat) {
    0xd800 <= v <= 0xdbff
  }

  predicate IsLowSurrogate(v: nat) {
    0xdc00 <= v <= 0xdfff
  }

  function EscapeControl(c: char): (e: string)
    requires IsControl(c)
  {
    match c as int
    case 0x08 => "\\b"
    case 0x0c => "\\f"
    case 0x0a => "\\n"
    case 0x0d => "\\r"
    case 0x09 => "\\t"
    case v => ['\\', 'u', '0', '0', HexDigit(v / 16), HexDigit(v % 16)]
  }

  /** A low surrogate escape standing right after the six characters of a high one. */
  predicate LowEscapeFollows(s: string) {
    |s| >= 8 && s[6] == '\\' && s[7] == 'u'
    && ParseHexQuad(s, 8).Some? && IsLowSurrogate(ParseHexQuad(s, 8).value)
  }

  datatype Token = Token(output: string, consumed: nat)

  /** What the repairer writes for the first piece of string content, and how much it reads. */
  function StringToken(s: string): (t: Token)
    requires s != [] && s[0] != '"'
    ensures 0 < t.consumed <= |s|
  {
    if s[0] == '\\' then
      if |s| == 1 then Token("\\\\", 1)
      else if s[1] == 'u' && ParseHexQuad(s, 2).Some? then
        var v := ParseHexQuad(s, 2).value;
        if IsHighSurrogate(v) then
          if LowEscapeFollows(s) then Token(s[..12], 12) else Token("\\uFFFD", 6)
        else if IsLowSurrogate(v) then Token("\\uFFFD", 6)
        else Token(s[..6], 6)
      else if IsSimpleEscape(s[1]) || s[1] == 'u' then Token(s[..2], 2)
      else Token("\\\\", 1)
    else if IsControl(s[0]) then Token(EscapeControl(s[0]), 1)
    else Token(s[..1], 1)
  }

  /** The specification of the repairer, started inside or outside a string. */
  function Repair(s: string, inString: bool): (r: string)
    decreases |s|
  {
    if s == [] then []
    else if !inString then [s[0]] + Repair(s[1..], s[0] == '"')
    else if s[0] == '"' then ['"'] + Repair(s[1..], false)
    else StringToken(s).output + Repair(s[StringToken(s).consumed..], true)
  }

  /** Whether the repairer ends inside a string. */
  function EndsInString(s: string, inString: bool): bool
    decreases |s|
  {
    if s == [] then inString
    else if !inString then EndsInString(s[1..], s[0] == '"')
    else if s[0] == '"' then EndsInString(s[1..], false)
    else EndsInString(s[StringToken(s).consumed..], true)
  }

  // ---------------------------------------------------------------------
  // The two-flag scanner that the completer and the truncation search share.

  datatype Lex = Lex(inString: bool, escaped: bool)

  const OUTSIDE := Lex(false, false)

  function LexStep(st: Lex, c: char): Lex {
    if st.inString then
      if st.escaped then Lex(true, false)
      else if c == '\\' then Lex(true, true)
      else if c == '"' then Lex(false, false)
      else st
    else Lex(c == '"', false)
  }

  function LexRun(st: Lex, s: string): Lex {
    if s == [] then st else LexStep(LexRun(st, s[..|s| - 1]), s[|s| - 1])
  }

  lemma {:induction false} LexRunAppend(st: Lex, a: string, b: string)
    ensures LexRun(st, a + b) == LexRun(LexRun(st, a), b)
    decreases |b|
  {
    if b == [] {
      assert a + b == a;
    } else {
      var b0 := b[..|b| - 1];
      assert (a + b)[..|a + b| - 1] == a + b0;
      LexRunAppend(st, a, b0);
    }
  }

  /** A character that is neither a quote nor a backslash leaves an unescaped in-string scanner alone. */
  predicate IsPlain(c: char) {
    c != '"' && c != '\\'
  }

  lemma {:induction false} LexPlain(s: string)
    requires forall i :: 0 <= i < |s| ==> IsPlain(s[i])
    ensures LexRun(Lex(true, false), s) == Lex(true, false)
  {
    if s != [] {
      LexPlain(s[..|s| - 1]);
    }
  }

  lemma LexEscape(s: string)
    requires |s| >= 2 && s[0] == '\\' && forall i :: 2 <= i < |s| ==> IsPlain(s[i])
    ensures LexRun(Lex(true, false), s) == Lex(true, false)
  {
    assert s == s[..2] + s[2..];
    LexRunAppend(Lex(true, false), s[..2], s[2..]);
    assert s[..2][..1] == s[..1] && s[..1][..0] == [];
    LexPlain(s[2..]);
  }

  lemma HexDigitsArePlain(s: string, start: nat)
    requires ParseHexQuad(s, start).Some?
    ensures forall i :: start <= i < start + 4 ==> IsPlain(s[i])
  {
    QuadValue(s, start);
  }

  /** A unicode escape, or a pair of them, leaves the scanner in the string. */
  lemma UnicodeLex(s: string)
    requires |s| >= 2 && s[0] == '\\' && s[1] == 'u' && ParseHexQuad(s, 2).Some?
    ensures LexRun(Lex(true, false), s[..6]) == Lex(true, false)
    ensures LowEscapeFollows(s) ==> LexRun(Lex(true, false), s[..12]) == Lex(true, false)
  {
    HexDigitsArePlain(s, 2);
    LexEscape(s[..6]);
    if LowEscapeFollows(s) {
      HexDigitsArePlain(s, 8);
      LexEscape(s[6..12]);
      assert s[..12] == s[..6] + s[6..12];
      LexRunAppend(Lex(true, false), s[..6], s[6..12]);
    }
  }

  predicate IsUnicodeEscape(s: string) {
    |s| >= 2 && s[0] == '\\' && s[1] == 'u' && ParseHexQuad(s, 2).Some?
  }

  lemma UnicodeToken(s: string)
    requires IsUnicodeEscape(s)
    ensures var t := StringToken(s);
            || (LowEscapeFollows(s) && t == Token(s[..12], 12))
            || t == Token(s[..6], 6)
            || t == Token("\\uFFFD", 6)
  {
  }

  lemma OtherToken(s: string)
    requires s != [] && s[0] != '"' && !IsUnicodeEscape(s)
    ensures var t := StringToken(s);
            || (s[0] == '\\' && |s| > 1 && t == Token(s[..2], 2))
            || (s[0] == '\\' && t == Token("\\\\", 1) && (|s| > 1 ==> IsPlain(s[1])))
            || (s[0] != '\\' && IsControl(s[0]) && t == Token(EscapeControl(s[0]), 1))
            || (s[0] != '\\' && t == Token(s[..1], 1))
  {
  }

  lemma ControlLex(c: char)
    requires IsControl(c)
    ensures LexRun(Lex(true, false), EscapeControl(c)) == Lex(true, false)
  {
    LexEscape(EscapeControl(c));
  }

  /** A token is written so that the scanner is back in the string, unescaped, after it. */
  lemma TokenLex(s: string)
    requires s != [] && s[0] != '"'
    ensures LexRun(Lex(true, false), StringToken(s).output) == Lex(true, false)
  {
    if IsUnicodeEscape(s) {
      UnicodeToken(s);
      UnicodeLex(s);
      LexEscape("\\uFFFD");
    } else {
      OtherToken(s);
      LexEscape("\\\\");
      if s[0] != '\\' {
        LexPlain(s[..1]);
        if IsControl(s[0]) {
          ControlLex(s[0]);
        }
      } else if |s| > 1 {
        LexEscape(s[..2]);
      }
    }
  }

  /** The same token, read unrepaired, leaves the scanner in the string; it may end escaped only
      where the repairer doubles a backslash, and then the next character is plain. */
  lemma TokenLexRaw(s: string)
    requires s != [] && s[0] != '"'
    ensures var n := StringToken(s).consumed;
            LexRun(Lex(true, false), s[..n]) == Lex(true, false)
            || (n == 1 && s[0] == '\\' && LexRun(Lex(true, false), s[..1]) == Lex(true, true)
                && (|s| > 1 ==> IsPlain(s[1])))
  {
    if IsUnicodeEscape(s) {
      UnicodeToken(s);
      UnicodeLex(s);
    } else {
      OtherToken(s);
      assert s[..1][..0] == [];
      if s[0] != '\\' {
        LexPlain(s[..1]);
      } else if |s| > 1 {
        LexEscape(s[..2]);
      }
    }
  }

  /** On repaired text the two-flag scanner is exactly in the repairer's string state and is
      never left in the middle of an escape. */
  lemma {:induction false} ScannerTracksRepairer(s: string, inString: bool)
    ensures LexRun(Lex(inString, false), Repair(s, inString)) == Lex(EndsInString(s, inString), false)
    decreases |s|
  {
    if s == [] {
    } else if !inString || s[0] == '"' {
      var next := !inString && s[0] == '"';
      LexRunAppend(Lex(inString, false), [s[0]], Repair(s[1..], next));
      assert [s[0]][..0] == [];
      ScannerTracksRepairer(s[1..], next);
    } else {
      var t := StringToken(s);
      LexRunAppend(Lex(true, false), t.output, Repair(s[t.consumed..], true));
      TokenLex(s);
      ScannerTracksRepairer(s[t.consumed..], true);
    }
  }

  /** The scanner run over the original text agrees with the repairer about where strings end. */
  lemma {:induction false} ScannerAgreesOnRawText(s: string, inString: bool)
    ensures LexRun(Lex(inString, false), s).inString == EndsInString(s, inString)
    decreases |s|
  {
    if s == [] {
    } else if !inString || s[0] == '"' {
      var next := !inString && s[0] == '"';
      assert s == [s[0]] + s[1..] && [s[0]][..0] == [];
      LexRunAppend(Lex(inString, false), [s[0]], s[1..]);
      ScannerAgreesOnRawText(s[1..], next);
    } else {
      var n := StringToken(s).consumed;
      assert s == s[..n] + s[n..];
      LexRunAppend(Lex(true, false), s[..n], s[n..]);
      TokenLexRaw(s);
      ScannerAgreesOnRawText(s[n..], true);
      if LexRun(Lex(true, false), s[..n]).escaped && |s| > 1 {
        // Both readings are back in the string, unescaped, after the plain character s[1].
        assert s[1..] == [s[1]] + s[2..] && [s[1]][..0] == [];
        LexRunAppend(Lex(true, true), [s[1]], s[2..]);
        LexRunAppend(Lex(true, false), [s[1]], s[2..]);
      }
    }
  }

  // ---------------------------------------------------------------------
  // Clean text: section 7 of RFC 8259, and no lone surrogate escape.

  /** Every string of `s` (the last may be unclosed) holds no raw control character, no unknown
      escape and no lone surrogate escape; `\u` without four hexadecimal digits is tolerated. */
  predicate Clean(s: string, inString: bool)
    decreases |s|
  {
    if s == [] then true
    else if !inString then Clean(s[1..], s[0] == '"')
    else if s[0] == '"' then Clean(s[1..], false)
    else if s[0] == '\\' then
      |s| > 1 &&
      if s[1] != 'u' then IsSimpleEscape(s[1]) && Clean(s[2..], true)
      else
        match ParseHexQuad(s, 2)
        case None => Clean(s[2..], true)
        case Some(v) =>
          if IsHighSurrogate(v) then LowEscapeFollows(s) && Clean(s[12..], true)
          else !IsLowSurrogate(v) && Clean(s[6..], true)
    else !IsControl(s[0]) && Clean(s[1..], true)
  }

  /** Repairing keeps the leading hexadecimal digits and never turns anything else into one. */
  lemma RepairHead(s: string)
    ensures Repair(s, true) == [] <==> s == []
    ensures s != [] && IsHexDigit(s[0]) ==> Repair(s, true) == [s[0]] + Repair(s[1..], true)
    ensures s != [] && !IsHexDigit(s[0]) ==> !IsHexDigit(Repair(s, true)[0])
  {
    if s != [] {
      FirstPiece(s);
    }
  }

  lemma FirstPiece(s: string)
    requires s != []
    ensures s[0] == '"' ==> Repair(s, true) == ['"'] + Repair(s[1..], false)
    ensures s[0] != '"' ==>
      var t := StringToken(s);
      Repair(s, true) == t.output + Repair(s[t.consumed..], true) && t.output != []
      && (t.output[0] == s[0] || t.output[0] == '\\')
  {
  }

  predicate StartsWithDigits(s: string, n: nat) {
    |s| >= n && forall i :: 0 <= i < n ==> IsHexDigit(s[i])
  }

  lemma {:induction false} RepairKeepsDigits(s: string, n: nat)
    ensures StartsWithDigits(Repair(s, true), n) <==> StartsWithDigits(s, n)
    ensures StartsWithDigits(s, n) ==> Repair(s, true)[..n] == s[..n]
    decreases n
  {
    if n > 0 {
      RepairHead(s);
      if s != [] && IsHexDigit(s[0]) {
        var r, tail := Repair(s, true), Repair(s[1..], true);
        RepairKeepsDigits(s[1..], n - 1);
        assert r[1..] == tail;
        DigitsAfterOne(s, n);
        DigitsAfterOne(r, n);
        if StartsWithDigits(s, n) {
          assert r[..n] == [s[0]] + tail[..n - 1] && s[..n] == [s[0]] + s[1..][..n - 1];
        }
      }
    }
  }

  lemma DigitsAfterOne(s: string, n: nat)
    requires n > 0 && s != [] && IsHexDigit(s[0])
    ensures StartsWithDigits(s, n) <==> StartsWithDigits(s[1..], n - 1)
  {
    if StartsWithDigits(s[1..], n - 1) {
      forall i | 0 <= i < n
        ensures IsHexDigit(s[i])
      {
        if i > 0 {
          assert s[i] == s[1..][i - 1];
        }
      }
    }
  }

  lemma QuadDigits(s: string)
    ensures ParseHexQuad(s, 0).Some? <==> StartsWithDigits(s, 4)
  {
    QuadValue(s, 0);
  }

  lemma RepairKeepsHexQuad(s: string)
    ensures ParseHexQuad(Repair(s, true), 0) == ParseHexQuad(s, 0)
  {
    var r := Repair(s, true);
    QuadDigits(s);
    QuadDigits(r);
    RepairKeepsDigits(s, 4);
    if StartsWithDigits(s, 4) {
      assert r[0..4] == r[..4] && s[0..4] == s[..4];
      SameQuad(r, 0, s, 0);
    }
  }

  lemma QuadAfterPrefix(p: string, s: string)
    ensures ParseHexQuad(p + s, |p|) == ParseHexQuad(s, 0)
  {
    QuadValue(p + s, |p|);
    QuadValue(s, 0);
  }

  lemma ReplacementQuad(r: string)
    requires "\\uFFFD" <= r
    ensures ParseHexQuad(r, 2) == Some(0xfffd)
  {
    QuadValue(r, 2);
    var head := r[..6];
    assert r[2] == head[2] && r[3] == head[3] && r[4] == head[4] && r[5] == head[5];
  }

  /** Clean content, one escape further on. */
  lemma CleanEscape(r: string)
    requires |r| >= 2 && r[0] == '\\'
    ensures r[1] != 'u' ==> (Clean(r, true) <==> IsSimpleEscape(r[1]) && Clean(r[2..], true))
    ensures r[1] == 'u' && ParseHexQuad(r, 2).None? ==> (Clean(r, true) <==> Clean(r[2..], true))
    ensures r[1] == 'u' && ParseHexQuad(r, 2).Some? && IsHighSurrogate(ParseHexQuad(r, 2).value) ==>
              (Clean(r, true) <==> LowEscapeFollows(r) && Clean(r[12..], true))
    ensures r[1] == 'u' && ParseHexQuad(r, 2).Some? && !IsHighSurrogate(ParseHexQuad(r, 2).value) ==>
              (Clean(r, true) <==> !IsLowSurrogate(ParseHexQuad(r, 2).value) && Clean(r[6..], true))
  {
  }

  /** The first characters of a text decide about the quads within them. */
  lemma QuadsWithin(out: string, tail: string, s: string)
    requires out <= s
    ensures |out| >= 6 ==> ParseHexQuad(out + tail, 2) == ParseHexQuad(s, 2)
    ensures |out| >= 12 ==> ParseHexQuad(out + tail, 8) == ParseHexQuad(s, 8)
  {
    var r := out + tail;
    assert r[..|out|] == s[..|out|];
    if |out| >= 6 {
      assert r[2..6] == r[..|out|][2..6] && s[2..6] == s[..|out|][2..6];
      SameQuad(r, 2, s, 2);
    }
    if |out| >= 12 {
      assert r[8..12] == r[..|out|][8..12] && s[8..12] == s[..|out|][8..12];
      SameQuad(r, 8, s, 8);
    }
  }

  /** Prefixing clean string content with a repaired token keeps it clean. */
  lemma TokenClean(s: string)
    requires s != [] && s[0] != '"'
    requires Clean(Repair(s[StringToken(s).consumed..], true), true)
    ensures Clean(Repair(s, true), true)
  {
    RepairToken(s);
    OutputClean(s, Repair(s[StringToken(s).consumed..], true));
  }

  lemma OutputClean(s: string, rest: string)
    requires s != [] && s[0] != '"'
    requires rest == Repair(s[StringToken(s).consumed..], true) && Clean(rest, true)
    ensures Clean(StringToken(s).output + rest, true)
  {
    var t := StringToken(s);
    var r := t.output + rest;
    assert r[|t.output|..] == rest;
    if s[0] == '\\' {
      if |s| > 1 && s[1] == 'u' {
        UnicodeTokenClean(s, rest);
      }
    } else if IsControl(s[0]) && |t.output| == 6 {
      ControlQuad(s[0], r);
    }
  }

  lemma UnicodeTokenClean(s: string, rest: string)
    requires |s| > 1 && s[0] == '\\' && s[1] == 'u'
    requires rest == Repair(s[StringToken(s).consumed..], true) && Clean(rest, true)
    ensures Clean(StringToken(s).output + rest, true)
  {
    var out := StringToken(s).output;
    var r := out + rest;
    assert r[|out|..] == rest;
    CleanEscape(r);
    if ParseHexQuad(s, 2).None? {
      RepairKeepsHexQuad(s[2..]);
      assert s[..2] + s[2..] == s;
      QuadAfterPrefix(s[..2], s[2..]);
      QuadAfterPrefix(out, rest);
    } else if out == "\\uFFFD" {
      ReplacementQuad(r);
    } else {
      QuadsWithin(out, rest, s);
    }
  }

  /** The four digits written for a control character spell its code. */
  lemma ControlQuad(c: char, r: string)
    requires IsControl(c) && |EscapeControl(c)| == 6 && EscapeControl(c) <= r
    ensures ParseHexQuad(r, 2) == Some(c as int)
  {
    var v := c as int;
    QuadValue(r, 2);
    assert r[..6] == EscapeControl(c);
    assert r[2] == '0' && r[3] == '0' && r[4] == HexDigit(v / 16) && r[5] == HexDigit(v % 16);
  }

  /** Repaired text is clean. */
  lemma {:induction false} RepairIsClean(s: string, inString: bool)
    ensures Clean(Repair(s, inString), inString)
    decreases |s|
  {
    if s == [] {
    } else if !inString || s[0] == '"' {
      RepairIsClean(s[1..], !inString && s[0] == '"');
      assert Repair(s, inString)[1..] == Repair(s[1..], !inString && s[0] == '"');
    } else {
      RepairIsClean(s[StringToken(s).consumed..], true);
      TokenClean(s);
    }
  }

  /** The texts the repairer leaves alone are exactly the clean ones. */
  lemma {:induction false} RepairFixesExactlyCleanText(s: string, inString: bool)
    ensures Repair(s, inString) == s <==> Clean(s, inString)
    decreases |s|
  {
    if Repair(s, inString) == s {
      RepairIsClean(s, inString);
    }
    if Clean(s, inString) && s != [] {
      if !inString || s[0] == '"' {
        RepairFixesExactlyCleanText(s[1..], !inString && s[0] == '"');
      } else {
        var n := StringToken(s).consumed;
        RepairFixesExactlyCleanText(s[n..], true);
        assert s == s[..n] + s[n..];
      }
    }
  }

  lemma RepairIsIdempotent(s: string, inString: bool)
    ensures Repair(Repair(s, inString), inString) == Repair(s, inString)
  {
    RepairIsClean(s, inString);
    RepairFixesExactlyCleanText(Repair(s, inString), inString);
  }

  // ---------------------------------------------------------------------
  // What a string literal means.

  function SimpleEscapeChar(c: char): char
    requires IsSimpleEscape(c)
  {
    match c
    case 'b' => 8 as char
    case 'f' => 12 as char
    case 'n' => '\n'
    case 'r' => '\r'
    case 't' => '\t'
    case c => c
  }

  function PairChar(high: nat, low: nat): char
    requires IsHighSurrogate(high) && IsLowSurrogate(low)
  {
    (0x10000 + (high - 0xd800) * 0x400 + (low - 0xdc00)) as char
  }

  function Cons(c: char, rest: Option<string>): Option<string> {
    match rest
    case None => None
    case Some(t) => Some([c] + t)
  }

  /** The text a string literal body denotes under section 7 of RFC 8259; None when the body is illegal. */
  function Decode(raw: string): Option<string>
    decreases |raw|
  {
    if raw == [] then Some([])
    else if raw[0] == '"' || IsControl(raw[0]) then None
    else if raw[0] != '\\' then Cons(raw[0], Decode(raw[1..]))
    else if |raw| == 1 then None
    else if IsSimpleEscape(raw[1]) then Cons(SimpleEscapeChar(raw[1]), Decode(raw[2..]))
    else if raw[1] != 'u' || ParseHexQuad(raw, 2).None? then None
    else
      var v := ParseHexQuad(raw, 2).value;
      if IsHighSurrogate(v) then
        if LowEscapeFollows(raw) then Cons(PairChar(v, ParseHexQuad(raw, 8).value), Decode(raw[12..])) else None
      else if IsLowSurrogate(v) then None
      else Cons(v as char, Decode(raw[6..]))
  }

  lemma DecodeOne(raw: string, c: char)
    requires |raw| == 2 && raw[0] == '\\' && IsSimpleEscape(raw[1]) && SimpleEscapeChar(raw[1]) == c
    ensures Decode(raw) == Some([c])
  {
    assert raw[2..] == [] && [c] + [] == [c];
  }

  /** The eight short escapes of section 7 of RFC 8259. */
  lemma ShortEscapesMean()
    ensures Decode("\\\"") == Some("\"") && Decode("\\\\") == Some("\\") && Decode("\\/") == Some("/")
    ensures Decode("\\b") == Some([8 as char]) && Decode("\\f") == Some([12 as char])
    ensures Decode("\\n") == Some("\n") && Decode("\\r") == Some("\r") && Decode("\\t") == Some("\t")
  {
    DecodeOne("\\\"", '"');
    DecodeOne("\\\\", '\\');
    DecodeOne("\\/", '/');
    DecodeOne("\\b", 8 as char);
    DecodeOne("\\f", 12 as char);
    DecodeOne("\\n", '\n');
    DecodeOne("\\r", '\r');
    DecodeOne("\\t", '\t');
  }

  /** Every character beyond the basic plane is what its pair of surrogates means. */
  lemma PairMeansCharacter(c: char)
    requires c as int >= 0x10000
    ensures var v := c as int - 0x10000;
            var high, low := 0xd800 + v / 0x400, 0xdc00 + v % 0x400;
            IsHighSurrogate(high) && IsLowSurrogate(low) && PairChar(high, low) == c
  {
  }

  /** The repairer meets a closing quote while reading `raw` as string content. */
  predicate HasQuote(raw: string)
    decreases |raw|
  {
    raw != [] && (raw[0] == '"' || HasQuote(raw[StringToken(raw).consumed..]))
  }

  /** The character that the first piece of any string body is meant to be, and the piece's
      width: illegal pieces stand for themselves and a lone surrogate escape for U+FFFD.
      Only a `\u` without its four digits means nothing. */
  datatype Piece = Piece(meaning: Option<char>, width: nat)

  function LenientPiece(raw: string): (p: Piece)
    requires raw != []
    ensures 0 < p.width <= |raw|
  {
    if raw[0] != '\\' then Piece(Some(raw[0]), 1)
    else if |raw| == 1 then Piece(Some('\\'), 1)
    else if IsSimpleEscape(raw[1]) then Piece(Some(SimpleEscapeChar(raw[1])), 2)
    else if raw[1] != 'u' then Piece(Some('\\'), 1)
    else if ParseHexQuad(raw, 2).None? then Piece(None, 2)
    else
      var v := ParseHexQuad(raw, 2).value;
      if IsHighSurrogate(v) && LowEscapeFollows(raw) then
        Piece(Some(PairChar(v, ParseHexQuad(raw, 8).value)), 12)
      else if IsHighSurrogate(v) || IsLowSurrogate(v) then Piece(Some(0xfffd as char), 6)
      else Piece(Some(v as char), 6)
  }

  function Lenient(raw: string): Option<string>
    decreases |raw|
  {
    if raw == [] then Some([])
    else
      var p := LenientPiece(raw);
      if p.meaning.None? then None else Cons(p.meaning.value, Lenient(raw[p.width..]))
  }

  lemma PieceWidth(raw: string)
    requires raw != [] && raw[0] != '"'
    ensures LenientPiece(raw).width == StringToken(raw).consumed
    ensures LenientPiece(raw).meaning.None? <==>
      |raw| > 1 && raw[0] == '\\' && raw[1] == 'u' && ParseHexQuad(raw, 2).None?
  {
  }

  lemma DecodeUnit(r: string, v: nat)
    requires |r| >= 6 && r[0] == '\\' && r[1] == 'u' && ParseHexQuad(r, 2) == Some(v)
    requires !IsHighSurrogate(v) && !IsLowSurrogate(v)
    ensures Decode(r) == Cons(v as char, Decode(r[6..]))
  {
  }

  lemma DecodePair(r: string)
    requires |r| >= 6 && r[0] == '\\' && r[1] == 'u' && ParseHexQuad(r, 2).Some?
    requires IsHighSurrogate(ParseHexQuad(r, 2).value) && LowEscapeFollows(r)
    ensures Decode(r) == Cons(PairChar(ParseHexQuad(r, 2).value, ParseHexQuad(r, 8).value), Decode(r[12..]))
  {
  }

  lemma DecodeShort(r: string, tail: string)
    requires |r| >= 2 && r[0] == '\\' && IsSimpleEscape(r[1]) && r[2..] == tail
    ensures Decode(r) == Cons(SimpleEscapeChar(r[1]), Decode(tail))
  {
  }

  lemma ControlMeaning(c: char, tail: string)
    requires IsControl(c)
    ensures Decode(EscapeControl(c) + tail) == Cons(c, Decode(tail))
  {
    var r := EscapeControl(c) + tail;
    assert r[|EscapeControl(c)|..] == tail;
    if |EscapeControl(c)| == 6 {
      ControlQuad(c, r);
      DecodeUnit(r, c as int);
    } else {
      DecodeShort(r, tail);
    }
  }

  lemma UnicodeMeaning(raw: string, tail: string)
    requires |raw| > 1 && raw[0] == '\\' && raw[1] == 'u' && ParseHexQuad(raw, 2).Some?
    ensures Decode(StringToken(raw).output + tail) == Cons(LenientPiece(raw).meaning.value, Decode(tail))
  {
    var out := StringToken(raw).output;
    var r := out + tail;
    assert r[|out|..] == tail;
    if out == "\\uFFFD" && StringToken(raw).consumed == 6 && LenientPiece(raw).meaning == Some(0xfffd as char) {
      ReplacementQuad(r);
      DecodeUnit(r, 0xfffd);
    } else {
      QuadsWithin(out, tail, raw);
      if |out| == 12 {
        DecodePair(r);
      } else {
        DecodeUnit(r, ParseHexQuad(raw, 2).value);
      }
    }
  }

  /** What the repairer writes for a piece decodes to exactly the piece's meaning. */
  lemma PieceMeaning(raw: string, tail: string)
    requires raw != [] && raw[0] != '"' && LenientPiece(raw).meaning.Some?
    ensures Decode(StringToken(raw).output + tail) == Cons(LenientPiece(raw).meaning.value, Decode(tail))
  {
    var r := StringToken(raw).output + tail;
    if raw[0] != '\\' {
      if IsControl(raw[0]) {
        ControlMeaning(raw[0], tail);
      } else {
        assert r == raw[..1] + tail && r[1..] == tail;
      }
    } else if |raw| > 1 && raw[1] == 'u' {
      UnicodeMeaning(raw, tail);
    } else {
      DecodeShort(r, tail);
    }
  }

  lemma NoDigitsNoMeaning(r: string)
    requires |r| >= 2 && r[0] == '\\' && r[1] == 'u' && ParseHexQuad(r, 2).None?
    ensures Decode(r) == None
  {
  }

  /** A repaired string body is legal and denotes the lenient meaning of the original body;
      it is illegal only where a `\u` lacks its digits. */
  lemma {:induction false} RepairGivesLenientMeaning(raw: string)
    requires !HasQuote(raw)
    ensures Decode(Repair(raw, true)) == Lenient(raw)
    decreases |raw|
  {
    if raw != [] {
      var t := StringToken(raw);
      var rest := Repair(raw[t.consumed..], true);
      PieceWidth(raw);
      RepairGivesLenientMeaning(raw[t.consumed..]);
      if LenientPiece(raw).meaning.Some? {
        PieceMeaning(raw, rest);
      } else {
        assert raw[..2] + raw[2..] == raw;
        RepairKeepsHexQuad(raw[2..]);
        QuadAfterPrefix(raw[..2], raw[2..]);
        QuadAfterPrefix(t.output, rest);
        NoDigitsNoMeaning(t.output + rest);
      }
    }
  }

  lemma RepairToken(s: string)
    requires s != [] && s[0] != '"'
    ensures Repair(s, true) == StringToken(s).output + Repair(s[StringToken(s).consumed..], true)
  {
  }

  lemma SplitAt(raw: string, tail: string, n: nat)
    requires n <= |raw|
    ensures (raw + tail)[..n] == raw[..n] && (raw + tail)[n..] == raw[n..] + tail
  {
  }

  /** A legal literal body followed by its quote is copied unchanged, whatever comes after. */
  lemma {:induction false} RepairKeepsLegalString(raw: string, rest: string)
    requires Decode(raw).Some?
    ensures Repair(raw + (['"'] + rest), true) == raw + (['"'] + Repair(rest, false))
    decreases |raw|
  {
    var quoted := ['"'] + rest;
    if raw == [] {
      assert raw + quoted == quoted;
      QuoteToken(rest);
    } else {
      var n := LegalToken(raw, raw + quoted);
      RepairKeepsLegalString(raw[n..], rest);
      SplitAt(raw, quoted, n);
      Reassemble(raw, n, ['"'] + Repair(rest, false));
    }
  }

  lemma QuoteToken(rest: string)
    ensures Repair(['"'] + rest, true) == ['"'] + Repair(rest, false)
  {
    assert (['"'] + rest)[1..] == rest;
  }

  lemma Reassemble(raw: string, n: nat, tail: string)
    requires n <= |raw|
    ensures raw[..n] + (raw[n..] + tail) == raw + tail
  {
  }

  /** The first token of a legal body is copied, and a legal body is left. */
  lemma LegalToken(raw: string, s: string) returns (n: nat)
    requires Decode(raw).Some? && raw != [] && raw <= s
    ensures 0 < n <= |raw| && Repair(s, true) == s[..n] + Repair(s[n..], true)
    ensures Decode(raw[n..]).Some?
  {
    assert s[0] == raw[0] && raw[0] != '"';
    n := StringToken(s).consumed;
    RepairToken(s);
    if raw[0] == '\\' && raw[1] == 'u' {
      var rest := s[|raw|..];
      assert s == raw + rest;
      QuadsWithin(raw, rest, raw);
      LongEnough(raw);
    }
  }

  lemma LongEnough(raw: string)
    requires Decode(raw).Some? && |raw| > 1 && raw[0] == '\\' && raw[1] == 'u'
    ensures ParseHexQuad(raw, 2).Some?
    ensures IsHighSurrogate(ParseHexQuad(raw, 2).value) ==> LowEscapeFollows(raw) && Decode(raw[12..]).Some?
    ensures !IsHighSurrogate(ParseHexQuad(raw, 2).value) ==>
              !IsLowSurrogate(ParseHexQuad(raw, 2).value) && Decode(raw[6..]).Some?
  {
  }

  // ---------------------------------------------------------------------
  // The repairer itself.

  method RepairJson(json: string) returns (repaired: string)
    ensures repaired == Repair(json, false)
    ensures Clean(repaired, false)
    ensures repaired == json <==> Clean(json, false)
    ensures LexRun(OUTSIDE, repaired) == Lex(EndsInString(json, false), false)
  {
    repaired := "";
    var inString := false;
    var index := 0;
    while index < |json|
      invariant index <= |json|
      invariant repaired + Repair(json[index..], inString) == Repair(json, false)
      decreases |json| - index
    {
      var piece, width;
      piece, width, inString := RepairOne(json, index, inString);
      AppendAssociates(repaired, piece, Repair(json[index + width..], inString));
      repaired := repaired + piece;
      index := index + width;
    }
    assert json[|json|..] == [];
    RepairIsClean(json, false);
    RepairFixesExactlyCleanText(json, false);
    ScannerTracksRepairer(json, false);
  }

  /** One round of the repair loop. */
  method RepairOne(json: string, index: nat, inString: bool) returns (piece: string, width: nat, stillIn: bool)
    requires index < |json|
    ensures 0 < width && index + width <= |json|
    ensures Repair(json[index..], inString) == piece + Repair(json[index + width..], stillIn)
  {
    var ch := json[index];
    RepairUnfold(json, index, inString);
    if !inString {
      return [ch], 1, ch == '"';
    }
    if ch == '"' {
      return [ch], 1, false;
    }
    if ch == '\\' {
      piece, width := RepairEscape(json, index);
      return piece, width, true;
    }
    if IsControl(ch) {
      return EscapeControl(ch), 1, true;
    }
    return [ch], 1, true;
  }

  lemma AppendAssociates(a: string, b: string, c: string)
    ensures (a + b) + c == a + (b + c)
  {
  }

  lemma RepairUnfold(json: string, index: nat, inString: bool)
    requires index < |json|
    ensures !inString || json[index] == '"' ==>
      Repair(json[index..], inString) == [json[index]] + Repair(json[index + 1..], !inString && json[index] == '"')
    ensures inString && json[index] != '"' ==>
      var t := StringToken(json[index..]);
      index + t.consumed <= |json|
      && Repair(json[index..], true) == t.output + Repair(json[index + t.consumed..], true)
    ensures json[index] != '"' && json[index] != '\\' ==>
      StringToken(json[index..]) ==
        Token(if IsControl(json[index]) then EscapeControl(json[index]) else [json[index]], 1)
  {
    var s := json[index..];
    assert s[1..] == json[index + 1..] && s[0] == json[index];
    if inString && json[index] != '"' {
      assert s[StringToken(s).consumed..] == json[index + StringToken(s).consumed..];
    }
  }

  lemma ShiftedQuad(json: string, index: nat, offset: nat)
    requires index <= |json|
    ensures ParseHexQuad(json[index..], offset) == ParseHexQuad(json, index + offset)
  {
    QuadValue(json[index..], offset);
    QuadValue(json, index + offset);
  }

  /** The backslash branch of the repair loop: what to write and how many characters it covers. */
  method RepairEscape(json: string, index: nat) returns (piece: string, width: nat)
    requires index < |json| && json[index] == '\\'
    ensures Token(piece, width) == StringToken(json[index..])
  {
    ghost var s := json[index..];
    if index + 1 == |json| {
      return "\\\\", 1;
    }
    var next := json[index + 1];
    assert s[1] == next;
    if next == 'u' {
      var quad := ParseHexQuad(json, index + 2);
      ShiftedQuad(json, index, 2);
      if quad.Some? {
        if IsHighSurrogate(quad.value) {
          if index + 7 < |json| && json[index + 6] == '\\' && json[index + 7] == 'u' {
            var low := ParseHexQuad(json, index + 8);
            ShiftedQuad(json, index, 8);
            assert s[6] == '\\' && s[7] == 'u';
            if low.Some? && IsLowSurrogate(low.value) {
              piece := "\\u" + json[index + 2..index + 6] + "\\u" + json[index + 8..index + 12];
              assert piece == s[..12];
              return piece, 12;
            }
          }
          return "\\uFFFD", 6;
        }
        if IsLowSurrogate(quad.value) {
          return "\\uFFFD", 6;
        }
        piece := "\\u" + json[index + 2..index + 6];
        assert piece == s[..6];
        return piece, 6;
      }
    }
    if IsSimpleEscape(next) || next == 'u' {
      assert ['\\', next] == s[..2];
      return ['\\', next], 2;
    }
    return "\\\\", 1;
  }
}
