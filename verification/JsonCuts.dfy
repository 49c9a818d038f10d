/** Repairing a text that was cut off, against repairing the whole of it. */
module JsonCuts {
  import opened Wrappers
  import opened Text
  import opened JsonRepair
  import opened JsonParser
  import opened JsonCompletion
  import opened JsonScanners
  import opened JsonStreaming

  // ---------------------------------------------------------------------
  // Tokens of a cut text.

  lemma QuadOfPrefix(s: string, cut: nat, start: nat)
    requires cut <= |s|
    ensures ParseHexQuad(s[..cut], start) == if start + 4 <= cut then ParseHexQuad(s, start) else None
  {
    if start + 4 <= cut {
      SameQuad(s[..cut], start, s, start);
    }
  }

  /** A cut behind a token leaves the token as it is. */
  lemma TokenOfPrefix(s: string, cut: nat)
    requires s != [] && s[0] != '"' && StringToken(s).consumed <= cut <= |s|
    ensures StringToken(s[..cut]) == StringToken(s)
  {
    QuadOfPrefix(s, cut, 2);
    QuadOfPrefix(s, cut, 8);
    assert cut >= 12 ==> s[..cut][..12] == s[..12];
    assert cut >= 6 ==> s[..cut][..6] == s[..6];
    assert cut >= 2 ==> s[..cut][..2] == s[..2];
    assert s[..cut][..1] == s[..1];
  }

  predicate Quoteless(s: string) {
    forall i :: 0 <= i < |s| ==> s[i] != '"'
  }

  /** A cut inside a token leaves no quote before it. */
  lemma CutTokenIsQuoteless(s: string, cut: nat)
    requires s != [] && s[0] != '"' && cut < StringToken(s).consumed
    ensures Quoteless(s[..cut])
  {
    if IsUnicodeEscape(s) {
      HexDigitsArePlain(s, 2);
      if LowEscapeFollows(s) {
        HexDigitsArePlain(s, 8);
      }
    }
  }

  lemma {:induction false} QuotelessRepair(s: string)
    requires Quoteless(s)
    ensures IsContent(Repair(s, true)) && EndsInString(s, true)
    decreases |s|
  {
    if s != [] {
      var t := StringToken(s);
      TokenIsContent(s);
      QuotelessRepair(s[t.consumed..]);
      ContentAppend(t.output, Repair(s[t.consumed..], true));
    }
  }

  // ---------------------------------------------------------------------
  // What the repaired cut text shares with the repaired whole text.

  /** Both texts begin with `p`, and the first goes on after it only with content of the string that
      is open there. */
  predicate PartsAt(inString: bool, p: string, r: string, whole: string) {
    && p <= r && p <= whole
    && (r == p || (IsContent(r[|p|..]) && LexRun(Lex(inString, false), p) == Lex(true, false)))
  }

  lemma PartsLater(inString: bool, head: string, next: bool, p: string, r: string, whole: string)
    requires PartsAt(next, p, r, whole) && LexRun(Lex(inString, false), head) == Lex(next, false)
    ensures PartsAt(inString, head + p, head + r, head + whole)
  {
    LexRunAppend(Lex(inString, false), head, p);
    assert (head + r)[|head + p|..] == r[|p|..];
  }

  lemma {:induction false} CutRepair(t: string, cut: nat, inString: bool) returns (p: string)
    requires cut <= |t|
    ensures PartsAt(inString, p, Repair(t[..cut], inString), Repair(t, inString))
    decreases cut
  {
    var s := t[..cut];
    if cut == 0 {
      p := [];
    } else if !inString || t[0] == '"' {
      var next := !inString && t[0] == '"';
      p := CutRepair(t[1..], cut - 1, next);
      assert s[1..] == t[1..][..cut - 1];
      assert [t[0]][..0] == [];
      PartsLater(inString, [t[0]], next, p, Repair(s[1..], next), Repair(t[1..], next));
      p := [t[0]] + p;
    } else if StringToken(t).consumed <= cut {
      var token := StringToken(t);
      TokenOfPrefix(t, cut);
      p := CutRepair(t[token.consumed..], cut - token.consumed, true);
      assert s[token.consumed..] == t[token.consumed..][..cut - token.consumed];
      TokenLex(t);
      PartsLater(true, token.output, true, p, Repair(s[token.consumed..], true), Repair(t[token.consumed..], true));
      p := token.output + p;
    } else {
      p := [];
      CutTokenIsQuoteless(t, cut);
      QuotelessRepair(s);
      assert Repair(s, true)[0..] == Repair(s, true);
    }
  }

  /** A text that ends outside strings is repaired the same whatever follows it. */
  lemma {:induction false} RepairSplits(s: string, rest: string, inString: bool)
    requires !EndsInString(s, inString)
    ensures Repair(s + rest, inString) == Repair(s, inString) + Repair(rest, false)
    decreases |s|
  {
    var whole := s + rest;
    if s == [] {
      assert whole == rest;
    } else if !inString || s[0] == '"' {
      var next := !inString && s[0] == '"';
      RepairSplits(s[1..], rest, next);
      assert whole[1..] == s[1..] + rest;
      AppendAssociates([s[0]], Repair(s[1..], next), Repair(rest, false));
    } else {
      var token := StringToken(s);
      TokenWithin(s, rest);
      TokenStays(s, rest);
      RepairSplits(s[token.consumed..], rest, true);
      RepairToken(s);
      RepairToken(whole);
      AppendAssociates(token.output, Repair(s[token.consumed..], true), Repair(rest, false));
    }
  }

  lemma TokenReachesOut(s: string, rest: string)
    requires s != [] && s[0] != '"' && |s| < StringToken(s + rest).consumed
    ensures EndsInString(s, true)
  {
    CutTokenIsQuoteless(s + rest, |s|);
    assert (s + rest)[..|s|] == s;
    QuotelessRepair(s);
  }

  lemma TokenWithin(s: string, rest: string)
    requires s != [] && s[0] != '"' && !EndsInString(s, true)
    ensures StringToken(s + rest).consumed <= |s|
  {
    if |s| < StringToken(s + rest).consumed {
      TokenReachesOut(s, rest);
    }
  }

  lemma TokenStays(s: string, rest: string)
    requires s != [] && s[0] != '"' && StringToken(s + rest).consumed <= |s|
    ensures var token := StringToken(s);
            StringToken(s + rest) == token && (s + rest)[token.consumed..] == s[token.consumed..] + rest
  {
    TokenOfPrefix(s + rest, |s|);
    assert (s + rest)[..|s|] == s;
    SplitAt(s, rest, StringToken(s).consumed);
  }

  // ---------------------------------------------------------------------
  // Reading with repair is reading the repaired text.

  lemma ReadableIsUnchanged(scalar: string -> bool, s: string)
    requires Parse(scalar, s).Some?
    ensures Repair(s, false) == s
  {
    ReadTextIsKept(scalar, s, []);
    assert s + [] == s;
  }

  lemma ReadsAsRepaired(scalar: string -> bool, s: string)
    ensures ParseWithRepair(scalar, s) == Parse(scalar, Repair(s, false))
  {
    if Parse(scalar, s).Some? {
      ReadableIsUnchanged(scalar, s);
    }
  }

  const BROKEN_ESCAPE := "\\u12"

  /** What repair does not mend: a unicode escape without its four digits is left as it stands, and
      the reader refuses every text whose last string ends in it. */
  lemma BrokenEscapeIsRefused(scalar: string -> bool)
    ensures Repair(BROKEN_ESCAPE, true) == BROKEN_ESCAPE && Decode(BROKEN_ESCAPE) == None
    ensures var text := ['"'] + BROKEN_ESCAPE + ['"'];
            Repair(text, false) == text && ParseWithRepair(scalar, text) == None
  {
    var raw := BROKEN_ESCAPE;
    var text := ['"'] + raw + ['"'];
    assert raw[2..] == ['1', '2'] && raw[3..] == ['2'] && raw[4..] == [];
    assert Repair(['2'], true) == ['2'] + Repair([], true) == ['2'];
    assert raw[2..][1..] == ['2'] && Repair(['1', '2'], true) == ['1'] + Repair(['2'], true);
    QuadValue(raw, 2);
    assert StringToken(raw) == Token(raw[..2], 2);
    assert raw == raw[..2] + raw[2..];
    BrokenTextIsClean();
    RepairFixesExactlyCleanText(text, false);
    ReadsAsRepaired(scalar, text);
    BrokenTextFails(scalar);
  }

  lemma BrokenTextIsClean()
    ensures Clean(['"'] + BROKEN_ESCAPE + ['"'], false)
  {
    var text := ['"'] + BROKEN_ESCAPE + ['"'];
    var inside := BROKEN_ESCAPE + ['"'];
    assert text[1..] == inside;
    QuadValue(inside, 2);
    CleanEscape(inside);
    assert inside[2..] == ['1', '2', '"'];
    assert inside[2..][1..] == ['2', '"'] && ['2', '"'][1..] == ['"'] && ['"'][1..] == [];
    assert Clean([], false) && Clean(['"'], true) && Clean(['2', '"'], true);
  }

  lemma BrokenTextFails(scalar: string -> bool)
    ensures Parse(scalar, ['"'] + BROKEN_ESCAPE + ['"']) == None
  {
    var raw := BROKEN_ESCAPE;
    assert [] + ['"'] == ['"'];
    RunSnoc(scalar, [], '"');
    assert Run(scalar, ['"']) == State([], InString("", false, false));
    assert raw[..0] == "" && ['"'] + "" == ['"'];
    OneMoreRaw(scalar, "", raw, 0, false);
    OneMoreRaw(scalar, raw[..1], raw, 1, true);
    OneMoreRaw(scalar, raw[..2], raw, 2, false);
    OneMoreRaw(scalar, raw[..3], raw, 3, false);
    assert raw[..4] == raw;
    RunSnoc(scalar, ['"'] + raw, '"');
    QuadValue(raw, 2);
  }

  lemma OneMoreRaw(scalar: string -> bool, before: string, raw: string, k: nat, escaped: bool)
    requires k < |raw| && before == raw[..k] && (escaped || raw[k] != '"')
    requires Run(scalar, ['"'] + before) == State([], InString(before, escaped, false))
    ensures Run(scalar, ['"'] + raw[..k + 1])
         == State([], InString(raw[..k + 1], !escaped && raw[k] == '\\', false))
  {
    assert raw[..k + 1] == before + [raw[k]];
    AppendAssociates(['"'], before, [raw[k]]);
    RunSnoc(scalar, ['"'] + before, raw[k]);
  }

  lemma {:induction false} BlankIsWhitespace(s: string)
    ensures IsBlank(s) <==> forall i :: 0 <= i < |s| ==> IsWhitespace(s[i])
  {
    if s != [] {
      BlankIsWhitespace(s[..|s| - 1]);
      assert IsWhitespace(s[|s| - 1]) ==> TrimEnd(s) == TrimEnd(s[..|s| - 1]);
    }
  }

  lemma {:induction false} FirstQuoteStays(s: string)
    ensures if Quoteless(s) then Repair(s, false) == s else !Quoteless(Repair(s, false))
  {
    if s != [] {
      var r := Repair(s, false);
      assert r[0] == s[0] && r[1..] == Repair(s[1..], s[0] == '"');
      if s[0] != '"' {
        FirstQuoteStays(s[1..]);
        assert Quoteless(s) <==> Quoteless(s[1..]) by {
          assert forall i :: 0 < i < |s| ==> s[i] == s[1..][i - 1];
        }
        assert !Quoteless(r[1..]) ==> !Quoteless(r);
      }
    }
  }

  lemma BlankStaysBlank(s: string)
    ensures IsBlank(Repair(s, false)) <==> IsBlank(s)
  {
    FirstQuoteStays(s);
    BlankIsWhitespace(s);
    BlankIsWhitespace(Repair(s, false));
    assert !IsWhitespace('"');
  }

  /** A recovery depends on the repaired text only. */
  lemma RecoveryReadsRepairedText(scalar: string -> bool, s: string)
    ensures ParseStreaming(scalar, Some(s)) == ParseStreaming(scalar, Some(Repair(s, false)))
  {
    RepairIsIdempotent(s, false);
    BlankStaysBlank(s);
    ReadsAsRepaired(scalar, s);
    ReadsAsRepaired(scalar, Repair(s, false));
  }

  // ---------------------------------------------------------------------
  // White space at the end.

  lemma SpaceAtTheEnd(scalar: string -> bool, s: string, c: char)
    requires IsJsonSpace(c)
    ensures Parse(scalar, s + [c]) == Parse(scalar, s)
  {
    RunSnoc(scalar, s, c);
  }

  lemma OpenStringDoesNotRead(scalar: string -> bool, s: string)
    requires EndsInString(s, false)
    ensures ParseWithRepair(scalar, s) == None
  {
    var r := Repair(s, false);
    ReadsAsRepaired(scalar, s);
    ScannerTracksRepairer(s, false);
    SurveyLex(NOTHING_READ, r);
    if !Run(scalar, r).mode.Fail? {
      ReaderAgreesWithSurvey(scalar, r);
    }
  }

  /** White space at the end of a text, a carriage return say, never changes what it reads as. */
  lemma TrailingSpaceIsIgnored(scalar: string -> bool, s: string, c: char)
    requires IsJsonSpace(c)
    ensures ParseWithRepair(scalar, s + [c]) == ParseWithRepair(scalar, s)
  {
    if EndsInString(s, false) {
      ScannerAgreesOnRawText(s, false);
      ScannerAgreesOnRawText(s + [c], false);
      assert (s + [c])[..|s|] == s;
      OpenStringDoesNotRead(scalar, s);
      OpenStringDoesNotRead(scalar, s + [c]);
    } else {
      RepairSplits(s, [c], false);
      assert [c][1..] == [];
      ReadsAsRepaired(scalar, s);
      ReadsAsRepaired(scalar, s + [c]);
      SpaceAtTheEnd(scalar, Repair(s, false), c);
    }
  }

  // ---------------------------------------------------------------------
  // What the reader makes of both.

  /** Wherever the reader of `s` stands outside strings, what it has read so far begins `t`. */
  ghost predicate Shares(scalar: string -> bool, s: string, t: string) {
    forall k :: 0 <= k <= |s| && !Run(scalar, s[..k]).mode.InString? ==> s[..k] <= t
  }

  lemma {:induction false} ContentPrefix(q: string, j: nat)
    requires IsContent(q) && j <= |q|
    ensures LexRun(Lex(true, false), q[..j]).inString
    decreases |q|
  {
    if j > 0 {
      assert [q[0]][..0] == [];
      if q[0] != '\\' {
        ContentPrefix(q[1..], j - 1);
        assert q[..j] == [q[0]] + q[1..][..j - 1];
        LexRunAppend(Lex(true, false), [q[0]], q[1..][..j - 1]);
      } else if j == 1 {
        assert q[..1] == [q[0]];
      } else {
        ContentPrefix(q[2..], j - 2);
        assert q[..j] == q[..2] + q[2..][..j - 2];
        LexEscape(q[..2]);
        LexRunAppend(Lex(true, false), q[..2], q[2..][..j - 2]);
      }
    }
  }

  predicate InsideString(st: State, stack: seq<Frame>, lex: Lex) {
    st.mode.InString? && st.stack == stack && lex == Lex(true, st.mode.escaped)
  }

  lemma InsideStep(scalar: string -> bool, st: State, stack: seq<Frame>, lex: Lex, c: char)
    requires InsideString(st, stack, lex) && LexStep(lex, c).inString
    ensures InsideString(Step(scalar, st, c), stack, LexStep(lex, c))
  {
  }

  /** As long as the scanner stays in a string, so does the reader. */
  lemma {:induction false} StaysInString(scalar: string -> bool, s: string, stack: seq<Frame>, q: string, j: nat)
    requires InsideString(Run(scalar, s), stack, Lex(true, false)) && IsContent(q) && j <= |q|
    ensures InsideString(Run(scalar, s + q[..j]), stack, LexRun(Lex(true, false), q[..j]))
    decreases j
  {
    if j == 0 {
      assert s + q[..0] == s;
    } else {
      var init := q[..j - 1];
      StaysInString(scalar, s, stack, q, j - 1);
      ContentPrefix(q, j);
      assert q[..j][..j - 1] == init && s + q[..j] == (s + init) + [q[j - 1]];
      InsideStep(scalar, Run(scalar, s + init), stack, LexRun(Lex(true, false), init), q[j - 1]);
      RunSnoc(scalar, s + init, q[j - 1]);
    }
  }

  /** The reader is in a string where the texts part, and stays in it. */
  lemma PartsInString(scalar: string -> bool, p: string, r: string, k: nat)
    requires p <= r && |p| <= k <= |r| && !Run(scalar, p).mode.Fail?
    requires IsContent(r[|p|..]) && LexRun(OUTSIDE, p) == Lex(true, false)
    ensures Run(scalar, r[..k]).mode.InString? && Run(scalar, r[..k]).stack == Run(scalar, p).stack
    ensures Run(scalar, p).mode.InString?
  {
    PartOpensString(scalar, p);
    StaysInString(scalar, p, Run(scalar, p).stack, r[|p|..], k - |p|);
    assert p + r[|p|..][..k - |p|] == r[..k];
  }

  lemma PartOpensString(scalar: string -> bool, p: string)
    requires !Run(scalar, p).mode.Fail? && LexRun(OUTSIDE, p) == Lex(true, false)
    ensures Run(scalar, p).mode.InString? && !Run(scalar, p).mode.escaped
  {
    ReaderAgreesWithSurvey(scalar, p);
    SurveyLex(NOTHING_READ, p);
  }

  /** A repaired cut text shares with the repaired whole text all the reader has read of it outside
      the string it was cut in. */
  lemma CutTextShares(scalar: string -> bool, t: string, cut: nat, p: string)
    requires cut <= |t| && PartsAt(false, p, Repair(t[..cut], false), Repair(t, false))
    requires !Run(scalar, p).mode.Fail?
    ensures Shares(scalar, Repair(t[..cut], false), Repair(t, false))
  {
    var r, whole := Repair(t[..cut], false), Repair(t, false);
    forall k | 0 <= k <= |r| && !Run(scalar, r[..k]).mode.InString?
      ensures r[..k] <= whole
    {
      if r != p && k >= |p| {
        PartsInString(scalar, p, r, k);
      } else {
        assert r[..k] == p[..k];
      }
    }
  }
}
