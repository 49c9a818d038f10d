/** The three scanners and the reader agree about strings and brackets. */
module JsonScanners {
  import opened Wrappers
  import opened Text
  import opened JsonRepair
  import opened JsonParser
  import opened JsonCompletion

  // ---------------------------------------------------------------------
  // The reader against the survey.

  function ClosersOf(stack: seq<Frame>): seq<char> {
    if stack == [] then []
    else ClosersOf(stack[..|stack| - 1]) + [if stack[|stack| - 1].ArrFrame? then ']' else '}']
  }

  lemma {:induction false} ClosersOfLength(stack: seq<Frame>)
    ensures |ClosersOf(stack)| == |stack|
  {
    if stack != [] {
      ClosersOfLength(stack[..|stack| - 1]);
    }
  }

  lemma ClosersOfOne(stack: seq<Frame>)
    requires |stack| == 1
    ensures ClosersOf(stack) == [if stack[0].ArrFrame? then ']' else '}']
  {
    assert stack[..0] == [] && ClosersOf([]) == [];
  }

  lemma ClosersOfSnoc(stack: seq<Frame>, f: Frame)
    ensures ClosersOf(stack + [f]) == ClosersOf(stack) + [if f.ArrFrame? then ']' else '}']
  {
    assert (stack + [f])[..|stack + [f]| - 1] == stack;
  }

  function LexOf(mode: Mode): Lex {
    match mode
    case InString(_, escaped, _) => Lex(true, escaped)
    case _ => OUTSIDE
  }

  /** The mode fits the innermost container. */
  predicate WellShaped(st: State) {
    match st.mode
    case ExpectKey => st.stack != [] && st.stack[|st.stack| - 1].ObjFrame?
    case ExpectKeyOrClose => st.stack != [] && st.stack[|st.stack| - 1] == ObjFrame([], "")
    case AfterKey => st.stack != [] && st.stack[|st.stack| - 1].ObjFrame?
    case InString(_, _, isKey) => isKey ==> st.stack != [] && st.stack[|st.stack| - 1].ObjFrame?
    case ExpectValueOrClose => st.stack != [] && st.stack[|st.stack| - 1] == ArrFrame([])
    case AfterValue => st.stack != []
    case Done(_) => st.stack == []
    case _ => true
  }

  predicate ReadsValue(st: State) {
    || |st.stack| > 1 || st.mode.ExpectValue? || st.mode.InWord?
    || (st.mode.InString? && !st.mode.isKey)
  }

  /** Top-level commas and colons count the members of the outermost object. */
  predicate CountsMembers(st: State, commas: nat, colons: nat) {
    if st.stack != [] then
      st.stack[0].ObjFrame? ==>
        var n := |st.stack[0].members|;
        if ReadsValue(st) then commas == n && colons == n + 1
        else if st.mode.AfterValue? then commas + 1 == n && colons == n
        else commas == n && colons == n
    else if st.mode.Done? then
      st.mode.result.Obj? ==>
        var n := |st.mode.result.members|;
        colons == n && (if n == 0 then commas == 0 else commas + 1 == n)
    else commas == 0 && colons == 0
  }

  predicate Agrees(st: State, sv: Survey) {
    && WellShaped(st)
    && sv.lex == LexOf(st.mode)
    && sv.open == Some(ClosersOf(st.stack))
    && CountsMembers(st, sv.commas, sv.colons)
  }

  /** Delivering to a container that is not the outermost one. */
  lemma DeliverInside(st: State, v: Value, sv: Survey)
    requires Agrees(st, sv) && |st.stack| > 1 && !st.mode.Done?
    ensures Agrees(Deliver(st.stack, v), sv.(lex := OUTSIDE))
  {
    var below := st.stack[..|st.stack| - 1];
    var st' := Deliver(st.stack, v);
    var top := st'.stack[|st.stack| - 1];
    assert st'.stack == below + [top] && st'.stack[0] == st.stack[0];
    assert st.stack == below + [st.stack[|st.stack| - 1]];
    ClosersOfSnoc(below, top);
    ClosersOfSnoc(below, st.stack[|st.stack| - 1]);
  }

  /** Delivering to the outermost container: an object's member count goes up. */
  lemma DeliverOutermost(st: State, v: Value, sv: Survey)
    requires Agrees(st, sv) && |st.stack| == 1 && (ReadsValue(st) || st.stack[0].ArrFrame?)
    requires !st.mode.Done? && !st.mode.AfterValue?
    ensures Agrees(Deliver(st.stack, v), sv.(lex := OUTSIDE))
  {
    var st' := Deliver(st.stack, v);
    assert st.stack[..0] == [] && st.stack == [st.stack[0]];
    ClosersOfSnoc([], st.stack[0]);
    ClosersOfSnoc([], st'.stack[0]);
    assert st'.stack == [] + [st'.stack[0]];
  }

  lemma DeliverAgrees(st: State, v: Value, sv: Survey)
    requires Agrees(st, sv) && (st.stack == [] || ReadsValue(st) || st.stack[0].ArrFrame?)
    requires !st.mode.Done? && !st.mode.AfterValue?
    requires st.stack == [] ==> !v.Obj?
    ensures Agrees(Deliver(st.stack, v), sv.(lex := OUTSIDE))
  {
    if st.stack != [] {
      if |st.stack| == 1 {
        DeliverOutermost(st, v, sv);
      } else {
        DeliverInside(st, v, sv);
      }
    }
  }

  lemma CloseOutermostAgrees(st: State, c: char, sv: Survey)
    requires Agrees(st, sv) && |st.stack| == 1 && sv.lex == OUTSIDE
    requires st.mode.AfterValue? || st.mode.ExpectKeyOrClose? || st.mode.ExpectValueOrClose?
    requires IsCloser(c) && !Close(st.stack, c).mode.Fail?
    ensures Agrees(Close(st.stack, c), SurveyStep(sv, c))
  {
    assert st.stack == [] + [st.stack[0]];
    ClosersOfSnoc([], st.stack[0]);
    assert st.stack[..0] == [];
  }

  lemma CloseInnerAgrees(st: State, c: char, sv: Survey)
    requires Agrees(st, sv) && |st.stack| > 1 && sv.lex == OUTSIDE
    requires IsCloser(c) && !Close(st.stack, c).mode.Fail?
    ensures Agrees(Close(st.stack, c), SurveyStep(sv, c))
  {
    var below := st.stack[..|st.stack| - 1];
    var top := st.stack[|st.stack| - 1];
    assert SurveyStep(sv, c) == sv.(lex := OUTSIDE, open := Some(ClosersOf(below)));
    var st' := Close(st.stack, c);
    ClosersOfSnoc(below[..|below| - 1], st'.stack[|below| - 1]);
    assert ClosersOf(st'.stack) == ClosersOf(below);
    assert st'.mode.AfterValue? && |st'.stack| == |below|;
  }

  lemma CloseAgrees(st: State, c: char, sv: Survey)
    requires Agrees(st, sv) && sv.lex == OUTSIDE
    requires st.mode.AfterValue? || st.mode.ExpectKeyOrClose? || st.mode.ExpectValueOrClose?
    requires IsCloser(c) && !Close(st.stack, c).mode.Fail?
    ensures Agrees(Close(st.stack, c), SurveyStep(sv, c))
  {
    if |st.stack| == 1 {
      CloseOutermostAgrees(st, c, sv);
    } else {
      CloseInnerAgrees(st, c, sv);
    }
  }

  lemma ContinueAgrees(st: State, c: char, sv: Survey)
    requires Agrees(st, sv) && (st.mode.AfterValue? || st.mode.Done?)
    requires !Continue(st, c).mode.Fail?
    ensures Agrees(Continue(st, c), SurveyStep(sv, c))
  {
    ClosersOfLength(st.stack);
    if IsCloser(c) {
      CloseAgrees(st, c, sv);
    }
  }

  lemma PushAgrees(st: State, frame: Frame, mode: Mode, sv: Survey)
    requires Agrees(st, sv) && (st.mode.ExpectValue? || st.mode.ExpectValueOrClose?)
    requires (frame == ObjFrame([], "") && mode == ExpectKeyOrClose)
             || (frame == ArrFrame([]) && mode == ExpectValueOrClose)
    requires !Push(st.stack, frame, mode).mode.Fail?
    ensures Agrees(Push(st.stack, frame, mode),
                   sv.(open := Some(ClosersOf(st.stack) + [if frame.ArrFrame? then ']' else '}'])))
  {
    ClosersOfSnoc(st.stack, frame);
    var st' := Push(st.stack, frame, mode);
    if st.stack != [] {
      assert st'.stack[0] == st.stack[0] && |st'.stack| > 1;
    }
  }

  lemma BeginAgrees(st: State, c: char, sv: Survey)
    requires Agrees(st, sv) && (st.mode.ExpectValue? || st.mode.ExpectValueOrClose?)
    requires !BeginValue(st.stack, c).mode.Fail?
    ensures Agrees(BeginValue(st.stack, c), SurveyStep(sv, c))
  {
    if c == '{' {
      PushAgrees(st, ObjFrame([], ""), ExpectKeyOrClose, sv);
    } else if c == '[' {
      PushAgrees(st, ArrFrame([]), ExpectValueOrClose, sv);
    } else {
      ClosersOfLength(st.stack);
    }
  }

  lemma EndStringAgrees(st: State, sv: Survey)
    requires Agrees(st, sv) && st.mode.InString?
    requires !EndString(st.stack, st.mode.raw, st.mode.isKey).mode.Fail?
    ensures Agrees(EndString(st.stack, st.mode.raw, st.mode.isKey), sv.(lex := OUTSIDE))
  {
    var text := Decode(st.mode.raw).value;
    if st.mode.isKey {
      var top := ObjFrame(st.stack[|st.stack| - 1].members, text);
      ClosersOfSnoc(st.stack[..|st.stack| - 1], top);
    } else {
      DeliverAgrees(st, Str(text), sv);
    }
  }

  lemma StepAgrees(scalar: string -> bool, st: State, c: char, sv: Survey)
    requires Agrees(st, sv) && !Step(scalar, st, c).mode.Fail?
    ensures Agrees(Step(scalar, st, c), SurveyStep(sv, c))
  {
    ClosersOfLength(st.stack);
    match st.mode
    case InString(raw, escaped, isKey) =>
      if !escaped && c == '"' { EndStringAgrees(st, sv); }
    case InWord(word) =>
      if !IsWordChar(c) {
        DeliverAgrees(st, Scalar(word), sv);
        ContinueAgrees(Deliver(st.stack, Scalar(word)), c, sv);
      }
    case AfterValue => ContinueAgrees(st, c, sv);
    case Done(_) => ContinueAgrees(st, c, sv);
    case ExpectValue =>
      if !IsJsonSpace(c) { BeginAgrees(st, c, sv); }
    case ExpectValueOrClose =>
      if IsCloser(c) { CloseAgrees(st, c, sv); } else if !IsJsonSpace(c) { BeginAgrees(st, c, sv); }
    case ExpectKeyOrClose =>
      if IsCloser(c) { CloseAgrees(st, c, sv); }
    case _ =>
  }

  /** On every text the reader has not refused, its stack is the survey's stack of owed closers,
      it is in a string exactly when the two-flag scanner is, and the top-level commas and colons
      count the members of the outermost object. */
  lemma {:induction false} ReaderAgreesWithSurvey(scalar: string -> bool, s: string)
    requires !Run(scalar, s).mode.Fail?
    ensures Agrees(Run(scalar, s), SurveyOf(s))
  {
    if s != [] {
      ReaderAgreesWithSurvey(scalar, s[..|s| - 1]);
      StepAgrees(scalar, Run(scalar, s[..|s| - 1]), s[|s| - 1], SurveyOf(s[..|s| - 1]));
    }
  }

  /** An object read from a text has at most one member more than the text has top-level commas,
      and no more members than it has top-level colons. */
  lemma MembersAreCounted(scalar: string -> bool, s: string)
    requires Parse(scalar, s).Some? && Parse(scalar, s).value.Obj?
    ensures var n := |Parse(scalar, s).value.members|;
            n <= SurveyOf(s).commas + 1 && n == SurveyOf(s).colons
  {
    ReaderAgreesWithSurvey(scalar, s);
  }

  // ---------------------------------------------------------------------
  // The repairer against the survey: repairing moves no bracket, comma or colon.

  /** String content made of plain characters and two-character escapes. */
  predicate IsContent(p: string)
    decreases |p|
  {
    if p == [] then true
    else if p[0] == '\\' then |p| > 1 && IsContent(p[2..])
    else p[0] != '"' && IsContent(p[1..])
  }

  lemma SurveyOne(st: Survey, c: char)
    ensures SurveyFrom(st, [c]) == SurveyStep(st, c)
  {
    assert [c][..0] == [];
  }

  lemma SurveyCons(st: Survey, c: char, s: string)
    ensures SurveyFrom(st, [c] + s) == SurveyFrom(SurveyStep(st, c), s)
  {
    SurveyAppend(st, [c], s);
    SurveyOne(st, c);
  }

  lemma {:induction false} ContentSurvey(st: Survey, p: string)
    requires st.lex == Lex(true, false) && IsContent(p)
    ensures SurveyFrom(st, p) == st
    decreases |p|
  {
    if p != [] {
      assert p == [p[0]] + p[1..];
      SurveyCons(st, p[0], p[1..]);
      if p[0] == '\\' {
        assert p[1..] == [p[1]] + p[2..];
        SurveyCons(SurveyStep(st, p[0]), p[1], p[2..]);
        ContentSurvey(st, p[2..]);
      } else {
        ContentSurvey(st, p[1..]);
      }
    }
  }

  lemma {:induction false} ContentAppend(p: string, q: string)
    requires IsContent(p) && IsContent(q)
    ensures IsContent(p + q)
    decreases |p|
  {
    if p == [] {
      assert p + q == q;
    } else {
      var n := if p[0] == '\\' then 2 else 1;
      ContentAppend(p[n..], q);
      assert (p + q)[n..] == p[n..] + q;
    }
  }

  lemma {:induction false} PlainIsContent(p: string)
    requires forall i :: 0 <= i < |p| ==> IsPlain(p[i])
    ensures IsContent(p)
  {
    if p != [] {
      PlainIsContent(p[1..]);
    }
  }

  lemma UnicodeEscapeIsContent(p: string)
    requires |p| == 6 && p[0] == '\\' && forall i :: 2 <= i < 6 ==> IsPlain(p[i])
    ensures IsContent(p)
  {
    PlainIsContent(p[2..]);
  }

  lemma TokenIsContent(s: string)
    requires s != [] && s[0] != '"'
    ensures IsContent(StringToken(s).output)
    ensures StringToken(s).consumed > 1 || s[0] != '\\' ==> IsContent(s[..StringToken(s).consumed])
  {
    if IsUnicodeEscape(s) {
      UnicodeToken(s);
      HexDigitsArePlain(s, 2);
      UnicodeEscapeIsContent(s[..6]);
      UnicodeEscapeIsContent("\\uFFFD");
      if LowEscapeFollows(s) {
        HexDigitsArePlain(s, 8);
        UnicodeEscapeIsContent(s[6..12]);
        ContentAppend(s[..6], s[6..12]);
        assert s[..12] == s[..6] + s[6..12];
      }
    } else {
      OtherToken(s);
      if |StringToken(s).output| == 6 {
        UnicodeEscapeIsContent(StringToken(s).output);
      } else {
        ShortIsContent(StringToken(s).output);
      }
      if StringToken(s).consumed > 1 || s[0] != '\\' {
        ShortIsContent(s[..StringToken(s).consumed]);
      }
    }
  }

  lemma ShortIsContent(p: string)
    requires (|p| == 1 && IsPlain(p[0])) || (|p| == 2 && p[0] == '\\')
    ensures IsContent(p)
  {
    assert p[1..] == [] || p[2..] == [];
  }

  lemma SkipContent(st: Survey, p: string, rest: string)
    requires st.lex == Lex(true, false) && IsContent(p)
    ensures SurveyFrom(st, p + rest) == SurveyFrom(st, rest)
  {
    SurveyAppend(st, p, rest);
    ContentSurvey(st, p);
  }

  /** A backslash the repairer doubles: raw reading takes the next, plain, character along. */
  lemma LoneBackslash(st: Survey, s: string)
    requires |s| > 1 && s[0] == '\\' && IsPlain(s[1]) && st.lex == Lex(true, false)
    ensures SurveyFrom(st, s) == SurveyFrom(st, s[1..])
  {
    var rest := s[2..];
    assert s == s[..2] + rest && s[1..] == s[1..2] + rest;
    ShortIsContent(s[..2]);
    ShortIsContent(s[1..2]);
    SkipContent(st, s[..2], rest);
    SkipContent(st, s[1..2], rest);
  }

  /** Reading the raw token leaves the survey where it was; a final lone backslash only leaves
      the scanner mid-escape. */
  lemma RawTokenKeepsSurvey(st: Survey, s: string)
    requires s != [] && s[0] != '"' && st.lex == Lex(true, false)
    ensures var n := StringToken(s).consumed;
            SurveyFrom(st, s) == SurveyFrom(st, s[n..])
            || (SurveyFrom(st, s) == st.(lex := Lex(true, true)) && s[n..] == [])
  {
    TokenIsContent(s);
    if StringToken(s).consumed > 1 || s[0] != '\\' {
      RawContent(st, s, StringToken(s).consumed);
    } else {
      RawBackslash(st, s);
    }
  }

  lemma RawContent(st: Survey, s: string, n: nat)
    requires n <= |s| && IsContent(s[..n]) && st.lex == Lex(true, false)
    ensures SurveyFrom(st, s) == SurveyFrom(st, s[n..])
  {
    assert s == s[..n] + s[n..];
    SkipContent(st, s[..n], s[n..]);
  }

  lemma RawBackslash(st: Survey, s: string)
    requires s != [] && s[0] == '\\' && StringToken(s).consumed == 1 && st.lex == Lex(true, false)
    ensures SurveyFrom(st, s) == SurveyFrom(st, s[1..])
            || (SurveyFrom(st, s) == st.(lex := Lex(true, true)) && s[1..] == [])
  {
    if |s| > 1 {
      OtherToken(s);
      LoneBackslash(st, s);
    } else {
      SurveyOne(st, s[0]);
      assert s == [s[0]];
    }
  }

  lemma RepairCharacter(s: string, inString: bool)
    requires s != [] && (!inString || s[0] == '"')
    ensures Repair(s, inString) == [s[0]] + Repair(s[1..], !inString && s[0] == '"')
  {
  }

  lemma CharacterRead(st: Survey, s: string)
    requires s != []
    ensures SurveyFrom(st, s) == SurveyFrom(SurveyStep(st, s[0]), s[1..])
  {
    assert s == [s[0]] + s[1..];
    SurveyCons(st, s[0], s[1..]);
  }

  lemma CharacterRepaired(st: Survey, s: string)
    requires s != [] && (!st.lex.inString || s[0] == '"')
    ensures SurveyFrom(st, Repair(s, st.lex.inString))
         == SurveyFrom(SurveyStep(st, s[0]), Repair(s[1..], !st.lex.inString && s[0] == '"'))
  {
    RepairCharacter(s, st.lex.inString);
    SurveyCons(st, s[0], Repair(s[1..], !st.lex.inString && s[0] == '"'));
  }

  /** Repairing a text changes neither its brackets nor its top-level commas and colons. */
  lemma {:induction false} RepairKeepsSurvey(st: Survey, s: string)
    requires !st.lex.escaped
    ensures var a := SurveyFrom(st, Repair(s, st.lex.inString));
            var b := SurveyFrom(st, s);
            a.open == b.open && a.commas == b.commas && a.colons == b.colons
    decreases |s|
  {
    if s == [] {
    } else if !st.lex.inString || s[0] == '"' {
      CharacterRead(st, s);
      CharacterRepaired(st, s);
      RepairKeepsSurvey(SurveyStep(st, s[0]), s[1..]);
    } else {
      var t := StringToken(s);
      TokenIsContent(s);
      RepairToken(s);
      SkipContent(st, t.output, Repair(s[t.consumed..], true));
      RawTokenKeepsSurvey(st, s);
      RepairKeepsSurvey(st, s[t.consumed..]);
    }
  }

  // ---------------------------------------------------------------------
  // The repairer against the reader: text read so far is never rewritten.

  /** Repairing anything that begins with `x` leaves `x` alone and ends it outside strings. */
  ghost predicate Stable(x: string) {
    forall y: string :: Repair(x + y, false) == x + Repair(y, false)
  }

  lemma StableOutside(x: string, c: char)
    requires Stable(x) && c != '"'
    ensures Stable(x + [c])
  {
    forall y: string
      ensures Repair((x + [c]) + y, false) == (x + [c]) + Repair(y, false)
    {
      assert (x + [c]) + y == x + ([c] + y);
      assert Repair(x + ([c] + y), false) == x + Repair([c] + y, false);
      assert ([c] + y)[1..] == y;
    }
  }

  lemma Nest(x: string, raw: string, y: string)
    ensures (x + ['"'] + raw + ['"']) + y == x + (['"'] + (raw + (['"'] + y)))
  {
  }

  lemma OpeningQuote(tail: string)
    ensures Repair(['"'] + tail, false) == ['"'] + Repair(tail, true)
  {
    assert (['"'] + tail)[1..] == tail;
  }

  lemma StableString(x: string, raw: string)
    requires Stable(x) && Decode(raw).Some?
    ensures Stable(x + ['"'] + raw + ['"'])
  {
    var z := x + ['"'] + raw + ['"'];
    forall y: string
      ensures Repair(z + y, false) == z + Repair(y, false)
    {
      StableStringBefore(x, raw, y);
    }
  }

  lemma StableStringBefore(x: string, raw: string, y: string)
    requires Stable(x) && Decode(raw).Some?
    ensures Repair((x + ['"'] + raw + ['"']) + y, false) == (x + ['"'] + raw + ['"']) + Repair(y, false)
  {
    var tail := raw + (['"'] + y);
    Nest(x, raw, y);
    assert Repair(x + (['"'] + tail), false) == x + Repair(['"'] + tail, false);
    OpeningQuote(tail);
    RepairKeepsLegalString(raw, y);
    Nest(x, raw, Repair(y, false));
  }

  /** The part of a text before the string the reader is in, or all of it. */
  function Settled(scalar: string -> bool, s: string): string {
    match Run(scalar, s).mode
    case InString(raw, _, _) => if |raw| < |s| then s[..|s| - |raw| - 1] else s
    case _ => s
  }

  predicate StringIsSuffix(scalar: string -> bool, s: string) {
    Run(scalar, s).mode.InString? ==> s == Settled(scalar, s) + ['"'] + Run(scalar, s).mode.raw
  }

  lemma StringOpens(scalar: string -> bool, s: string, c: char)
    requires !Run(scalar, s).mode.InString? && Run(scalar, s + [c]).mode.InString?
    ensures Settled(scalar, s + [c]) == s && StringIsSuffix(scalar, s + [c])
  {
    RunSnoc(scalar, s, c);
    OnlyQuoteOpens(scalar, Run(scalar, s), c);
    assert Run(scalar, s + [c]).mode.raw == "";
  }

  lemma NoStringAfterDeliver(stack: seq<Frame>, v: Value)
    ensures !Deliver(stack, v).mode.InString?
  {
  }

  lemma NoStringAfterContinue(st: State, c: char)
    requires !st.mode.InString?
    ensures !Continue(st, c).mode.InString? && !Close(st.stack, c).mode.InString?
  {
    if st.stack != [] {
      match st.stack[|st.stack| - 1] {
        case ArrFrame(items) => NoStringAfterDeliver(st.stack[..|st.stack| - 1], Arr(items));
        case ObjFrame(members, _) => NoStringAfterDeliver(st.stack[..|st.stack| - 1], Obj(members));
      }
    }
  }

  lemma OnlyQuoteOpens(scalar: string -> bool, st: State, c: char)
    requires !st.mode.InString? && Step(scalar, st, c).mode.InString?
    ensures c == '"' && Step(scalar, st, c).mode.raw == ""
  {
    NoStringAfterContinue(st, c);
    if st.mode.InWord? {
      NoStringAfterDeliver(st.stack, Scalar(st.mode.word));
      NoStringAfterContinue(Deliver(st.stack, Scalar(st.mode.word)), c);
    }
  }

  lemma StringContinues(scalar: string -> bool, s: string, c: char)
    requires Run(scalar, s).mode.InString? && Run(scalar, s + [c]).mode.InString?
    requires StringIsSuffix(scalar, s)
    ensures Settled(scalar, s + [c]) == Settled(scalar, s) && StringIsSuffix(scalar, s + [c])
  {
    RunSnoc(scalar, s, c);
    var raw := Run(scalar, s).mode.raw;
    assert Run(scalar, s + [c]).mode.raw == raw + [c];
    assert s + [c] == Settled(scalar, s) + ['"'] + (raw + [c]);
  }

  lemma StringCloses(scalar: string -> bool, s: string, c: char)
    requires Run(scalar, s).mode.InString?
    requires !Run(scalar, s + [c]).mode.InString? && !Run(scalar, s + [c]).mode.Fail?
    ensures c == '"' && Decode(Run(scalar, s).mode.raw).Some?
  {
    RunSnoc(scalar, s, c);
  }

  lemma {:induction false} ReadTextIsStable(scalar: string -> bool, s: string)
    requires !Run(scalar, s).mode.Fail?
    ensures Stable(Settled(scalar, s)) && StringIsSuffix(scalar, s)
  {
    if s == [] {
      assert forall y: string :: s + y == y;
    } else {
      var s0 := s[..|s| - 1];
      var c := s[|s| - 1];
      assert s == s0 + [c];
      ReadTextIsStable(scalar, s0);
      if Run(scalar, s0).mode.InString? {
        if Run(scalar, s).mode.InString? {
          StringContinues(scalar, s0, c);
        } else {
          StringCloses(scalar, s0, c);
          StableString(Settled(scalar, s0), Run(scalar, s0).mode.raw);
        }
      } else if Run(scalar, s).mode.InString? {
        StringOpens(scalar, s0, c);
      } else {
        QuoteOpens(scalar, Run(scalar, s0), c);
        StableOutside(s0, c);
      }
    }
  }

  lemma QuoteOpens(scalar: string -> bool, st: State, c: char)
    requires !st.mode.InString?
    requires !Step(scalar, st, c).mode.InString? && !Step(scalar, st, c).mode.Fail?
    ensures c != '"'
  {
  }

  lemma ReadTextIsKept(scalar: string -> bool, s: string, rest: string)
    requires !Run(scalar, s).mode.Fail? && !Run(scalar, s).mode.InString?
    ensures Repair(s + rest, false) == s + Repair(rest, false)
  {
    ReadTextIsStable(scalar, s);
  }

  // ---------------------------------------------------------------------
  // The completer against the reader: what it prunes, the reader would have skipped.

  lemma SpaceStep(scalar: string -> bool, st: State, space: char)
    requires !st.mode.InString? && IsWhitespace(space) && !Step(scalar, st, space).mode.Fail?
    ensures Step(scalar, st, space) == st
            || (st.mode.InWord? && scalar(st.mode.word)
                && Step(scalar, st, space) == Deliver(st.stack, Scalar(st.mode.word)))
  {
  }

  lemma SpaceBeforeCloser(scalar: string -> bool, st: State, space: char, closer: char)
    requires !st.mode.InString? && IsWhitespace(space) && IsCloser(closer)
    requires !Step(scalar, st, space).mode.Fail?
    ensures Step(scalar, Step(scalar, st, space), closer) == Step(scalar, st, closer)
  {
    SpaceStep(scalar, st, space);
    if st.mode.InWord? {
      var st' := Deliver(st.stack, Scalar(st.mode.word));
      assert st'.mode.Done? || st'.mode.AfterValue?;
    }
  }

  lemma SeparatorBeforeCloser(scalar: string -> bool, st: State, separator: char, closer: char)
    requires !st.mode.InString? && (separator == ',' || separator == ':') && IsCloser(closer)
    ensures Step(scalar, Step(scalar, st, separator), closer).mode.Fail?
  {
  }

  lemma NoStringAfterOrdinary(scalar: string -> bool, st: State, c: char)
    requires c != '"' && !Step(scalar, st, c).mode.InString?
    ensures !st.mode.InString?
  {
  }

  /** A closer reads the same after trailing white space has been trimmed. */
  lemma {:induction false} TrimBeforeCloser(scalar: string -> bool, s: string, closer: char)
    requires !Run(scalar, s).mode.Fail? && !Run(scalar, s).mode.InString? && IsCloser(closer)
    ensures !Run(scalar, TrimEnd(s)).mode.Fail? && !Run(scalar, TrimEnd(s)).mode.InString?
    ensures Step(scalar, Run(scalar, TrimEnd(s)), closer) == Step(scalar, Run(scalar, s), closer)
  {
    if s != [] && IsWhitespace(s[|s| - 1]) {
      var s0 := s[..|s| - 1];
      NoStringAfterOrdinary(scalar, Run(scalar, s0), s[|s| - 1]);
      SpaceBeforeCloser(scalar, Run(scalar, s0), s[|s| - 1], closer);
      TrimBeforeCloser(scalar, s0, closer);
    }
  }

  /** When a closer is acceptable, nothing but white space is pruned before it. */
  lemma NoSeparatorBeforeCloser(scalar: string -> bool, s: string, closer: char)
    requires !Run(scalar, s).mode.InString? && IsCloser(closer)
    requires !Step(scalar, Run(scalar, s), closer).mode.Fail?
    ensures !EndsWith(s, ',') && !EndsWith(s, ':')
  {
    if EndsWith(s, ',') || EndsWith(s, ':') {
      NoStringAfterOrdinary(scalar, Run(scalar, s[..|s| - 1]), s[|s| - 1]);
      SeparatorBeforeCloser(scalar, Run(scalar, s[..|s| - 1]), s[|s| - 1], closer);
    }
  }

  /** As long as the reader accepts the text, the completer goes on and what it has written
      brings the reader to the same state. */
  lemma {:induction false} CompleterTracksReader(scalar: string -> bool, s: string)
    requires !Run(scalar, s).mode.Fail?
    ensures CompleteRun(s).Some? && Run(scalar, CompleteRun(s).value.text) == Run(scalar, s)
  {
    if s != [] {
      var s0 := s[..|s| - 1];
      var c := s[|s| - 1];
      CompleterTracksReader(scalar, s0);
      ReaderAgreesWithSurvey(scalar, s0);
      ReaderAgreesWithSurvey(scalar, s);
      var st := CompleteRun(s0).value;
      CompleterKnowsItsText(s0);
      if !st.lex.inString && IsCloser(c) {
        TrimBeforeCloser(scalar, st.text, c);
        NoSeparatorBeforeCloser(scalar, TrimEnd(st.text), c);
        RunSnoc(scalar, TrimEnd(st.text), c);
      } else {
        RunSnoc(scalar, st.text, c);
      }
    }
  }
}
