/** The recovery of a cut-off text in full: what is held of it, and what is dropped where the text
    ends in something that cannot be completed. */
module JsonDropped {
  import opened Wrappers
  import opened Text
  import opened JsonRepair
  import opened JsonParser
  import opened JsonCompletion
  import opened JsonScanners
  import opened JsonStreaming
  import opened JsonCuts
  import opened JsonRecovery
  import opened JsonInterrupted

  // ---------------------------------------------------------------------
  // The recovery as a function of the reader's state.

  /** The open containers with the value being read; a key, a key without its value, a word that is
      no scalar and a string with a broken escape are dropped. */
  function Kept(scalar: string -> bool, st: State): seq<Frame>
    requires st.stack != []
  {
    match Held(scalar, st)
    case Some(held) => held
    case None => st.stack
  }

  /** What is recovered from a text on which the reader is left in the state `st`. */
  function Recovered(scalar: string -> bool, st: State): Value {
    if st.stack != [] then Wrapped(Kept(scalar, st))
    else
      match st.mode
      case Done(v) => v
      case InWord(word) => if scalar(word) then Scalar(word) else Obj([])
      case InString(raw, _, _) => if Decode(raw).Some? then Str(Decode(raw).value) else Obj([])
      case _ => Obj([])
  }

  // ---------------------------------------------------------------------
  // The end of the text, trimmed.

  /** White space that leads anywhere but behind a value leads nowhere. */
  lemma {:induction false} TrimmedState(scalar: string -> bool, text: string)
    requires var mode := Run(scalar, text).mode;
             !mode.Fail? && !mode.InString? && !mode.AfterValue? && !mode.Done?
    ensures Run(scalar, TrimEnd(text)) == Run(scalar, text)
    decreases |text|
  {
    if text != [] && IsWhitespace(text[|text| - 1]) {
      var init, last := text[..|text| - 1], text[|text| - 1];
      SpaceLeadsNowhere(scalar, Run(scalar, init), last);
      TrimmedState(scalar, init);
    }
  }

  lemma SpaceLeadsNowhere(scalar: string -> bool, st: State, space: char)
    requires IsWhitespace(space)
    requires var mode := Step(scalar, st, space).mode;
             !mode.Fail? && !mode.InString? && !mode.AfterValue? && !mode.Done?
    ensures Step(scalar, st, space) == st
  {
    NoStringAfterOrdinary(scalar, st, space);
    SpaceStep(scalar, st, space);
    if st.mode.InWord? && scalar(st.mode.word) {
      var next := Deliver(st.stack, Scalar(st.mode.word));
      assert next.mode.Done? || next.mode.AfterValue?;
    }
  }

  /** The character that led to a state where something is missing. */
  lemma LastCharacter(scalar: string -> bool, st: State, c: char)
    requires !IsWhitespace(c) && WellShaped(st) && Step(scalar, st, c).stack != []
    ensures var next := Step(scalar, st, c);
            && (next.mode.AfterKey? ==> c == '"')
            && (next.mode.ExpectValue? && next.stack[|next.stack| - 1].ObjFrame? ==> c == ':')
            && (next.mode.InWord? ==> c != ',')
  {
    if st.mode.InWord? && !IsWordChar(c) && scalar(st.mode.word) {
      var next := Deliver(st.stack, Scalar(st.mode.word));
      assert next.mode.Done? || next.mode.AfterValue?;
    }
  }

  /** Nothing the reader takes may follow but a colon, a value or the rest of a word. */
  predicate Unfinished(scalar: string -> bool, st: State) {
    && st.stack != []
    && (st.mode.AfterKey? || (st.mode.InWord? && !scalar(st.mode.word))
        || (st.mode.ExpectValue? && st.stack[|st.stack| - 1].ObjFrame?))
  }

  lemma UnfinishedEnd(scalar: string -> bool, text: string)
    requires Unfinished(scalar, Run(scalar, text)) && text != [] && !IsWhitespace(text[|text| - 1])
    ensures !EndsWith(text, ',')
  {
    var init := text[..|text| - 1];
    PrefixNotFailed(scalar, text);
    ReaderAgreesWithSurvey(scalar, init);
    LastCharacter(scalar, Run(scalar, init), text[|text| - 1]);
  }

  lemma UnfinishedTrimmed(scalar: string -> bool, text: string)
    requires Unfinished(scalar, Run(scalar, text))
    ensures Run(scalar, TrimEnd(text)) == Run(scalar, text) && !EndsWith(TrimEnd(text), ',')
  {
    TrimmedState(scalar, text);
    UnfinishedEnd(scalar, TrimEnd(text));
  }

  // ---------------------------------------------------------------------
  // A refused text stays refused.

  lemma {:induction false} RefusalStays(scalar: string -> bool, s: string, t: string)
    requires s <= t && Run(scalar, s).mode.Fail?
    ensures Run(scalar, t).mode.Fail?
    decreases |t|
  {
    if |s| == |t| {
      assert s == t;
    } else {
      RefusalStays(scalar, s, t[..|t| - 1]);
    }
  }

  /** A text whose repair begins with something refused does not read. */
  lemma DoesNotRead(scalar: string -> bool, bad: string, t: string)
    requires Run(scalar, bad).mode.Fail? && bad <= Repair(t, false)
    ensures ParseWithRepair(scalar, t) == None
  {
    ReadsAsRepaired(scalar, t);
    RefusalStays(scalar, bad, Repair(t, false));
  }

  lemma UnfinishedRefusesCloser(scalar: string -> bool, st: State, c: char)
    requires Unfinished(scalar, st) && IsCloser(c)
    ensures Step(scalar, st, c).mode.Fail?
  {
  }

  lemma CloserStandsFirst(stack: seq<Frame>)
    requires stack != []
    ensures ClosersOf(stack) != []
    ensures var rest := Reversed(ClosersOf(stack));
            rest != [] && IsCloser(rest[0])
  {
    ClosersAreClosers(stack);
  }

  /** The completion of an unfinished text, if there is one, does not read. */
  lemma UnfinishedDoesNotComplete(scalar: string -> bool, text: string)
    requires Unfinished(scalar, Run(scalar, text))
    ensures var done := CloseAll(text, ClosersOf(Run(scalar, text).stack));
            done.Some? ==> ParseWithRepair(scalar, done.value) == None
  {
    var stack := Run(scalar, text).stack;
    var t, rest := TrimEnd(text), Reversed(ClosersOf(stack));
    UnfinishedTrimmed(scalar, text);
    CloserStandsFirst(stack);
    ClosersAreClosers(stack);
    if CloseAll(text, ClosersOf(stack)).Some? {
      CloseAllAppends(text, ClosersOf(stack));
      ReadTextIsKept(scalar, t, rest);
      RunSnoc(scalar, t, rest[0]);
      UnfinishedRefusesCloser(scalar, Run(scalar, t), rest[0]);
      assert Repair(rest, false)[0] == rest[0];
      DoesNotRead(scalar, t + [rest[0]], t + rest);
    }
  }

  // ---------------------------------------------------------------------
  // A text cut inside a string that has a broken escape.

  /** What the reader holds of a string: content, up to a backslash whose character is to come. */
  predicate ContentSoFar(raw: string, escaped: bool) {
    if escaped then raw != [] && raw[|raw| - 1] == '\\' && IsContent(raw[..|raw| - 1]) else IsContent(raw)
  }

  lemma ContentGoesOn(raw: string, escaped: bool, c: char)
    requires ContentSoFar(raw, escaped) && (escaped || c != '"')
    ensures ContentSoFar(raw + [c], !escaped && c == '\\')
  {
    if escaped {
      var init := raw[..|raw| - 1];
      ContentAppend(init, ['\\', c]);
      assert raw + [c] == init + ['\\', c];
    } else if c != '\\' {
      ContentAppend(raw, [c]);
    } else {
      assert (raw + [c])[..|raw|] == raw;
    }
  }

  lemma {:induction false} RawIsContent(scalar: string -> bool, s: string)
    requires Run(scalar, s).mode.InString?
    ensures ContentSoFar(Run(scalar, s).mode.raw, Run(scalar, s).mode.escaped)
  {
    var init, last := s[..|s| - 1], s[|s| - 1];
    var before := Run(scalar, init);
    if before.mode.InString? {
      RawIsContent(scalar, init);
      StringStepInside(scalar, before, last);
      ContentGoesOn(before.mode.raw, before.mode.escaped, last);
    } else {
      OnlyQuoteOpens(scalar, before, last);
    }
  }

  lemma StringStepInside(scalar: string -> bool, st: State, c: char)
    requires st.mode.InString? && Step(scalar, st, c).mode.InString?
    ensures st.mode.escaped || c != '"'
    ensures Step(scalar, st, c).mode.raw == st.mode.raw + [c]
    ensures Step(scalar, st, c).mode.escaped == (!st.mode.escaped && c == '\\')
  {
    if !st.mode.escaped && c == '"' && Decode(st.mode.raw).Some? {
      NoStringAfterDeliver(st.stack, Str(Decode(st.mode.raw).value));
    }
  }

  /** The string a repaired text is cut in needs no further repair. */
  lemma RawIsClean(scalar: string -> bool, s: string)
    requires Run(scalar, Repair(s, false)).mode.InString?
    ensures Clean(Run(scalar, Repair(s, false)).mode.raw, true)
  {
    var r := Repair(s, false);
    var x, raw := Settled(scalar, r), Run(scalar, r).mode.raw;
    ReadTextIsStable(scalar, r);
    AppendAssociates(x, ['"'], raw);
    RepairIsIdempotent(s, false);
    assert Repair(x + (['"'] + raw), false) == x + Repair(['"'] + raw, false);
    OpeningQuote(raw);
    SameTail(x, ['"'] + Repair(raw, true), ['"'] + raw);
    RepairFixesExactlyCleanText(raw, true);
  }

  lemma SameTail(x: string, a: string, b: string)
    requires x + a == x + b
    ensures a == b && (a != [] ==> a[1..] == b[1..])
  {
    assert a == (x + a)[|x|..] && b == (x + b)[|x|..];
  }

  /** A hexadecimal quad cannot reach over a quote. */
  lemma QuadBeforeQuote(raw: string, rest: string, start: nat)
    requires start <= |raw|
    ensures ParseHexQuad(raw + (['"'] + rest), start) == ParseHexQuad(raw, start)
  {
    var whole := raw + (['"'] + rest);
    assert whole[..|raw|] == raw;
    QuadOfPrefix(whole, |raw|, start);
    if start + 4 > |raw| {
      QuadValue(whole, start);
      assert whole[|raw|] == '"';
    }
  }

  lemma {:induction false} ContentAfterPlain(p: string, k: nat)
    requires IsContent(p) && k <= |p| && forall i :: 0 <= i < k ==> IsPlain(p[i])
    ensures IsContent(p[k..])
  {
    if k > 0 {
      ContentAfterPlain(p[1..], k - 1);
      assert p[1..][k - 1..] == p[k..];
    }
  }

  lemma ContentAfterQuad(raw: string, at: nat)
    requires at <= |raw| && IsContent(raw[at..]) && ParseHexQuad(raw, at).Some?
    ensures IsContent(raw[at + 4..])
  {
    HexDigitsArePlain(raw, at);
    ContentAfterPlain(raw[at..], 4);
    assert raw[at..][4..] == raw[at + 4..];
  }

  /** The width of a legal escape. */
  function EscapeWidth(raw: string): (n: nat)
    requires IsContent(raw) && Clean(raw, true) && raw != [] && raw[0] == '\\'
    ensures 2 <= n <= |raw|
  {
    if raw[1] != 'u' || ParseHexQuad(raw, 2).None? then 2
    else if IsHighSurrogate(ParseHexQuad(raw, 2).value) then 12 else 6
  }

  lemma ContentAfterEscape(raw: string)
    requires raw != [] && raw[0] == '\\' && IsContent(raw) && Clean(raw, true)
    ensures IsContent(raw[EscapeWidth(raw)..]) && Clean(raw[EscapeWidth(raw)..], true)
  {
    if EscapeWidth(raw) > 2 {
      ContentAfterQuad(raw, 2);
      if EscapeWidth(raw) > 6 {
        assert raw[6..][2..] == raw[8..];
        ContentAfterQuad(raw, 8);
      }
    }
  }

  lemma CleanEscapeThenQuote(raw: string, rest: string)
    requires raw != [] && raw[0] == '\\' && IsContent(raw) && Clean(raw, true)
    requires Clean(raw[EscapeWidth(raw)..] + (['"'] + rest), true)
    ensures Clean(raw + (['"'] + rest), true)
  {
    var whole, n := raw + (['"'] + rest), EscapeWidth(raw);
    assert whole[n..] == raw[n..] + (['"'] + rest);
    QuadBeforeQuote(raw, rest, 2);
    if n == 12 {
      QuadBeforeQuote(raw, rest, 8);
    }
  }

  /** Legal content, its closing quote and legal text after it are legal together. */
  lemma {:induction false} CleanThenQuote(raw: string, rest: string)
    requires IsContent(raw) && Clean(raw, true) && Clean(rest, false)
    ensures Clean(raw + (['"'] + rest), true)
    decreases |raw|
  {
    var whole := raw + (['"'] + rest);
    if raw == [] {
      assert whole[1..] == rest;
    } else if raw[0] != '\\' {
      CleanThenQuote(raw[1..], rest);
      assert whole[1..] == raw[1..] + (['"'] + rest);
    } else {
      ContentAfterEscape(raw);
      CleanThenQuote(raw[EscapeWidth(raw)..], rest);
      CleanEscapeThenQuote(raw, rest);
    }
  }

  lemma UndecodableTextStays(scalar: string -> bool, text: string, rest: string)
    requires Run(scalar, text).mode.InString? && !Run(scalar, text).mode.escaped
    requires Clean(Run(scalar, text).mode.raw, true) && Quoteless(rest)
    ensures Repair((text + ['"']) + rest, false) == (text + ['"']) + rest
  {
    var x, raw := Settled(scalar, text), Run(scalar, text).mode.raw;
    ReadTextIsStable(scalar, text);
    RawIsContent(scalar, text);
    FirstQuoteStays(rest);
    RepairFixesExactlyCleanText(rest, false);
    CleanThenQuote(raw, rest);
    RepairFixesExactlyCleanText(raw + (['"'] + rest), true);
    Nest(x, raw, rest);
    assert Repair(x + (['"'] + (raw + (['"'] + rest))), false) == x + Repair(['"'] + (raw + (['"'] + rest)), false);
    OpeningQuote(raw + (['"'] + rest));
  }

  lemma {:induction false} ReversedIsQuoteless(closers: seq<char>)
    requires forall i :: 0 <= i < |closers| ==> IsCloser(closers[i])
    ensures Quoteless(Reversed(closers))
  {
    if closers != [] {
      ReversedIsQuoteless(closers[..|closers| - 1]);
    }
  }

  lemma BrokenStringIsRefused(scalar: string -> bool, text: string)
    requires Run(scalar, text).mode.InString? && !Run(scalar, text).mode.escaped
    requires Decode(Run(scalar, text).mode.raw).None?
    ensures Run(scalar, text + ['"']).mode.Fail?
  {
    RunSnoc(scalar, text, '"');
  }

  /** A text that is cut in a string with a broken escape has no completion that reads. */
  lemma BrokenStringDoesNotComplete(scalar: string -> bool, text: string, closers: seq<char>)
    requires Run(scalar, text).mode.InString? && !Run(scalar, text).mode.escaped
    requires Clean(Run(scalar, text).mode.raw, true) && Decode(Run(scalar, text).mode.raw).None?
    requires forall i :: 0 <= i < |closers| ==> IsCloser(closers[i])
    ensures var done := CloseAll(text + ['"'], closers);
            done.Some? ==> ParseWithRepair(scalar, done.value) == None
  {
    if CloseAll(text + ['"'], closers).Some? {
      QuoteEndsTrimmed(text, closers);
      ReversedIsQuoteless(closers);
      UndecodableTextStays(scalar, text, Reversed(closers));
      BrokenStringIsRefused(scalar, text);
      DoesNotRead(scalar, text + ['"'], (text + ['"']) + Reversed(closers));
    }
  }

  lemma QuoteEndsTrimmed(text: string, closers: seq<char>)
    requires CloseAll(text + ['"'], closers).Some?
    requires forall i :: 0 <= i < |closers| ==> IsCloser(closers[i])
    ensures CloseAll(text + ['"'], closers).value == (text + ['"']) + Reversed(closers)
  {
    CloseAllAppends(text + ['"'], closers);
  }

  // ---------------------------------------------------------------------
  // Where nothing is held, the completion fails.

  /** What cannot be completed: a broken string, or what is unfinished once the string is closed. */
  predicate NothingHeld(scalar: string -> bool, st: State) {
    if st.mode.InString? then Decode(st.mode.raw).None? || (st.stack != [] && st.mode.isKey)
    else Unfinished(scalar, st)
  }

  lemma NoneHeld(scalar: string -> bool, st: State)
    requires st.stack != [] && !st.mode.Fail? && WellShaped(st) && Held(scalar, st).None?
    ensures NothingHeld(scalar, st)
  {
  }

  lemma KeyClosed(scalar: string -> bool, text: string)
    requires var st := Run(scalar, text);
             WellShaped(st) && st.mode.InString? && !st.mode.escaped && st.mode.isKey && Decode(st.mode.raw).Some?
    ensures Unfinished(scalar, Run(scalar, text + ['"']))
    ensures ClosersOf(Run(scalar, text + ['"']).stack) == ClosersOf(Run(scalar, text).stack)
  {
    var st := Run(scalar, text);
    RunSnoc(scalar, text, '"');
    SameClosers(st.stack, Run(scalar, text + ['"']).stack);
  }

  lemma NoReadableCompletion(scalar: string -> bool, s: string)
    requires var st := Run(scalar, Repair(s, false));
             !st.mode.Fail? && NothingHeld(scalar, st)
    ensures Attempt(scalar, s) == None
  {
    var r := Repair(s, false);
    var st := Run(scalar, r);
    CompleterTracksReader(scalar, r);
    CompleterKnowsItsText(r);
    ReaderAgreesWithSurvey(scalar, r);
    RepairedNeverEndsMidEscape(s);
    var text := CompleteRun(r).value.text;
    if !st.mode.InString? {
      UnfinishedDoesNotComplete(scalar, text);
    } else if Decode(st.mode.raw).None? {
      RawIsClean(scalar, s);
      ClosersAreClosers(st.stack);
      BrokenStringDoesNotComplete(scalar, text, ClosersOf(st.stack));
    } else {
      KeyClosed(scalar, text);
      UnfinishedDoesNotComplete(scalar, text + ['"']);
    }
  }

  // ---------------------------------------------------------------------
  // The last truncation holds what the text held.

  /** The same open containers; the key of the innermost one does not matter. */
  predicate SameContents(a: seq<Frame>, b: seq<Frame>) {
    && a != [] && |a| == |b| && a[..|a| - 1] == b[..|b| - 1]
    && FrameValue(a[|a| - 1]) == FrameValue(b[|b| - 1])
  }

  lemma SameContentsWrapped(a: seq<Frame>, b: seq<Frame>)
    requires SameContents(a, b)
    ensures Wrapped(a) == Wrapped(b)
  {
    if |a| > 1 {
      assert Folded(a) == Folded(b);
    }
  }

  predicate HoldsSame(scalar: string -> bool, x: string, stack: seq<Frame>) {
    var st := Run(scalar, x);
    st.stack != [] && BeforeCloser(scalar, st) && Held(scalar, st).Some? && SameContents(Held(scalar, st).value, stack)
  }

  /** The last cut of `r` is before a closer, and the reader holds there what it holds at the end. */
  predicate LastCutHolds(scalar: string -> bool, r: string) {
    var cuts := Cuts(r);
    cuts != [] && cuts[|cuts| - 1] <= |r| && HoldsSame(scalar, r[..cuts[|cuts| - 1]], Run(scalar, r).stack)
  }

  predicate AtCut(scalar: string -> bool, st: State) {
    st.stack != [] && !st.mode.Fail? && !st.mode.AfterValue?
  }

  /** An opening bracket, a comma, or a step that keeps the open containers and adds no cut. */
  lemma StepFromCut(scalar: string -> bool, st: State, c: char)
    requires WellShaped(st) && AtCut(scalar, Step(scalar, st, c))
    ensures var next := Step(scalar, st, c);
            if st.mode.InString? then AtCut(scalar, st) && SameContents(st.stack, next.stack)
            else if c == '{' || c == '[' then next.mode.ExpectKeyOrClose? || next.mode.ExpectValueOrClose?
            else if c == ',' then st.stack != [] && BeforeCloser(scalar, st) && Held(scalar, st) == Some(next.stack)
            else AtCut(scalar, st) && SameContents(st.stack, next.stack)
  {
    if st.mode.InWord? && !IsWordChar(c) && scalar(st.mode.word) {
      var next := Deliver(st.stack, Scalar(st.mode.word));
      assert next.mode.Done? || next.mode.AfterValue?;
    }
  }

  lemma LexIsOfMode(scalar: string -> bool, s: string)
    requires !Run(scalar, s).mode.Fail?
    ensures LexRun(OUTSIDE, s) == LexOf(Run(scalar, s).mode)
  {
    ReaderAgreesWithSurvey(scalar, s);
    SurveyLex(NOTHING_READ, s);
  }

  lemma SameCutHolds(scalar: string -> bool, r0: string, r: string)
    requires r0 <= r && LastCutHolds(scalar, r0) && Cuts(r) == Cuts(r0)
    requires SameContents(Run(scalar, r0).stack, Run(scalar, r).stack)
    ensures LastCutHolds(scalar, r)
  {
    var pos := Cuts(r0)[|Cuts(r0)| - 1];
    assert r[..pos] == r0[..pos];
  }

  lemma NewCutHolds(scalar: string -> bool, r: string, cut: nat)
    requires cut <= |r| && Cuts(r) != [] && Cuts(r)[|Cuts(r)| - 1] == cut
    requires HoldsSame(scalar, r[..cut], Run(scalar, r).stack)
    ensures LastCutHolds(scalar, r)
  {
  }

  /** After an opening bracket or a comma, and until the next value ends, nothing is lost at the last cut. */
  lemma {:induction false} LastCutKeeps(scalar: string -> bool, r: string)
    requires AtCut(scalar, Run(scalar, r))
    ensures LastCutHolds(scalar, r)
  {
    var r0, c := r[..|r| - 1], r[|r| - 1];
    assert r == r0 + [c];
    PrefixNotFailed(scalar, r);
    ReaderAgreesWithSurvey(scalar, r0);
    LexIsOfMode(scalar, r0);
    StepFromCut(scalar, Run(scalar, r0), c);
    if !Run(scalar, r0).mode.InString? && (c == '{' || c == '[') {
      assert r[..|r|] == r;
      NewCutHolds(scalar, r, |r|);
    } else if !Run(scalar, r0).mode.InString? && c == ',' {
      assert r[..|r0|] == r0;
      NewCutHolds(scalar, r, |r0|);
    } else {
      LastCutKeeps(scalar, r0);
      SameCutHolds(scalar, r0, r);
    }
  }

  lemma StepAtTop(scalar: string -> bool, st: State, c: char)
    requires var next := Step(scalar, st, c);
             next.stack == [] && !next.mode.Fail? && !next.mode.Done?
    ensures st.stack == [] && !st.mode.Fail? && !st.mode.Done?
    ensures !st.mode.InString? ==> c != '{' && c != '[' && c != ','
  {
    if st.mode.InWord? && !IsWordChar(c) && scalar(st.mode.word) {
      var next := Deliver(st.stack, Scalar(st.mode.word));
      assert next.mode.Done? || next.mode.AfterValue?;
    }
  }

  /** Before anything is open there is nowhere to cut. */
  lemma {:induction false} NoCutAtTop(scalar: string -> bool, r: string)
    requires var st := Run(scalar, r);
             st.stack == [] && !st.mode.Fail? && !st.mode.Done?
    ensures Cuts(r) == []
  {
    if r != [] {
      var r0 := r[..|r| - 1];
      StepAtTop(scalar, Run(scalar, r0), r[|r| - 1]);
      LexIsOfMode(scalar, r0);
      NoCutAtTop(scalar, r0);
    }
  }

  // ---------------------------------------------------------------------
  // The recovery in full.

  /** A prefix that ends before a closer is recovered by its completion. */
  lemma TruncationIsRead(scalar: string -> bool, x: string)
    requires var st := Run(scalar, x);
             st.stack != [] && BeforeCloser(scalar, st) && Held(scalar, st).Some?
    ensures Attempt(scalar, x) == Some(Wrapped(Held(scalar, Run(scalar, x)).value))
  {
    ReadTextIsKept(scalar, x, []);
    assert x + [] == x;
    CompletionReads(scalar, x);
  }

  lemma LastValueIsLast(attempts: seq<Option<Value>>, v: Value)
    requires attempts != [] && attempts[|attempts| - 1] == Some(v)
    ensures LastValue(attempts) == v
  {
  }

  lemma AttemptAt(scalar: string -> bool, candidates: seq<string>, i: nat)
    requires i < |candidates|
    ensures Attempts(scalar, candidates)[i] == Attempt(scalar, candidates[i])
  {
  }

  lemma LastCandidate(r: string)
    requires Cuts(r) != []
    ensures Candidates(r) != [] && Cuts(r)[|Cuts(r)| - 1] <= |r|
    ensures Candidates(r)[|Candidates(r)| - 1] == r[..Cuts(r)[|Cuts(r)| - 1]]
  {
  }

  lemma TruncationHolds(scalar: string -> bool, x: string, stack: seq<Frame>)
    requires HoldsSame(scalar, x, stack)
    ensures Attempt(scalar, x) == Some(Wrapped(stack))
  {
    TruncationIsRead(scalar, x);
    SameContentsWrapped(Held(scalar, Run(scalar, x)).value, stack);
  }

  /** Where the completion does not read, the last truncation does, and gives what the text held. */
  lemma SearchReads(scalar: string -> bool, r: string)
    requires AtCut(scalar, Run(scalar, r))
    ensures LastValue(Attempts(scalar, Candidates(r))) == Wrapped(Run(scalar, r).stack)
  {
    LastCutKeeps(scalar, r);
    LastCandidate(r);
    TruncationHolds(scalar, r[..Cuts(r)[|Cuts(r)| - 1]], Run(scalar, r).stack);
    AttemptAt(scalar, Candidates(r), |Candidates(r)| - 1);
    LastValueIsLast(Attempts(scalar, Candidates(r)), Wrapped(Run(scalar, r).stack));
  }

  lemma DroppedIsCut(scalar: string -> bool, s: string)
    requires var st := Run(scalar, Repair(s, false));
             st.stack != [] && !st.mode.Fail? && Held(scalar, st).None?
    ensures ParseStreaming(scalar, Some(s)) == Wrapped(Run(scalar, Repair(s, false)).stack)
  {
    var r := Repair(s, false);
    OpenTextIsNotBlank(scalar, r);
    BlankStaysBlank(s);
    ReadsAsRepaired(scalar, s);
    ReaderAgreesWithSurvey(scalar, r);
    NoneHeld(scalar, Run(scalar, r));
    NoReadableCompletion(scalar, s);
    SearchReads(scalar, r);
  }

  lemma BegunTextIsNotBlank(scalar: string -> bool, s: string)
    requires var mode := Run(scalar, Repair(s, false)).mode;
             !mode.Fail? && !mode.ExpectValue?
    ensures !IsBlank(s)
  {
    BlankStaysBlank(s);
    BlankIsWhitespace(Repair(s, false));
    if IsBlank(Repair(s, false)) {
      BlankRun(scalar, Repair(s, false));
    }
  }

  /** A text that reads is recovered as what it reads as. */
  lemma ReadableIsRecovered(scalar: string -> bool, s: string)
    requires Parse(scalar, Repair(s, false)).Some?
    ensures ParseStreaming(scalar, Some(s)) == Parse(scalar, Repair(s, false)).value
  {
    ReadsAsRepaired(scalar, s);
    BegunTextIsNotBlank(scalar, s);
  }

  lemma BlankIsRecovered(scalar: string -> bool, s: string)
    requires Run(scalar, Repair(s, false)) == START
    ensures ParseStreaming(scalar, Some(s)) == Obj([])
  {
    ExpectingIsBlank(scalar, Repair(s, false));
    AllWhitespaceIsBlank(Repair(s, false));
    BlankStaysBlank(s);
  }

  lemma TopLevelAttempt(scalar: string -> bool, s: string)
    requires var st := Run(scalar, Repair(s, false));
             st.stack == [] && (st.mode.InWord? || st.mode.InString?) && Parse(scalar, Repair(s, false)).None?
    ensures Attempt(scalar, s) == match Run(scalar, Repair(s, false)).mode
                                  case InString(raw, _, _) => (match Decode(raw)
                                                               case Some(text) => Some(Str(text))
                                                               case None => None)
                                  case _ => None
  {
    var r := Repair(s, false);
    CompleterTracksReader(scalar, r);
    CompleterKnowsItsText(r);
    ReaderAgreesWithSurvey(scalar, r);
    RepairedNeverEndsMidEscape(s);
    var text := CompleteRun(r).value.text;
    if Run(scalar, r).mode.InWord? {
      ReadTextIsKept(scalar, text, []);
      assert text + [] == text;
      ReadsAsRepaired(scalar, text);
    } else if Decode(Run(scalar, r).mode.raw).None? {
      RawIsClean(scalar, s);
      BrokenStringDoesNotComplete(scalar, text, []);
    } else {
      RunSnoc(scalar, text, '"');
    }
  }

  lemma TopLevelIsRecovered(scalar: string -> bool, s: string)
    requires var st := Run(scalar, Repair(s, false));
             st.stack == [] && (st.mode.InWord? || st.mode.InString?) && Parse(scalar, Repair(s, false)).None?
    ensures ParseStreaming(scalar, Some(s)) == Recovered(scalar, Run(scalar, Repair(s, false)))
  {
    ReadsAsRepaired(scalar, s);
    BegunTextIsNotBlank(scalar, s);
    TopLevelAttempt(scalar, s);
    NoCutAtTop(scalar, Repair(s, false));
  }

  /** The recovery of every text the reader has not refused, wherever it ends. */
  lemma RecoveryIsExact(scalar: string -> bool, s: string)
    requires !Run(scalar, Repair(s, false)).mode.Fail?
    ensures ParseStreaming(scalar, Some(s)) == Recovered(scalar, Run(scalar, Repair(s, false)))
  {
    var r := Repair(s, false);
    var st := Run(scalar, r);
    ReaderAgreesWithSurvey(scalar, r);
    if st.stack != [] {
      if Held(scalar, st).Some? {
        InterruptedTextReads(scalar, s);
      } else {
        DroppedIsCut(scalar, s);
      }
    } else if Parse(scalar, r).Some? {
      ReadableIsRecovered(scalar, s);
    } else if st.mode.ExpectValue? {
      BlankIsRecovered(scalar, s);
    } else {
      TopLevelIsRecovered(scalar, s);
    }
  }

  /** Cut any text that reads, directly or after repair, anywhere: the recovery is exactly what the reader
      holds of the cut text, and every container it has open leads, at its own depth, to the
      corresponding one of the whole value. */
  lemma EveryCutReads(scalar: string -> bool, t: string, w: Value, cut: nat)
    requires ParseWithRepair(scalar, t) == Some(w) && cut <= |t|
    ensures var st := Run(scalar, Repair(t[..cut], false));
            && ParseStreaming(scalar, Some(t[..cut])) == Recovered(scalar, st)
            && (st.stack != [] ==> Leads(st.stack, false, w))
  {
    ReadsAsRepaired(scalar, t);
    var p := CutRepair(t, cut, false);
    CutIsNotRefused(scalar, p, Repair(t[..cut], false), Repair(t, false), w);
    if Run(scalar, Repair(t[..cut], false)).stack != [] {
      CutStackLeads(scalar, p, Repair(t[..cut], false), Repair(t, false), w);
    }
    RecoveryIsExact(scalar, t[..cut]);
  }

  lemma CutIsNotRefused(scalar: string -> bool, p: string, r: string, whole: string, w: Value)
    requires PartsAt(false, p, r, whole) && Parse(scalar, whole) == Some(w)
    ensures !Run(scalar, r).mode.Fail?
  {
    PrefixLeads(scalar, p, whole, w);
    if r != p {
      PartsInString(scalar, p, r, |r|);
      assert r[..|r|] == r;
    }
  }

  // ---------------------------------------------------------------------
  // The recovery itself.

  /** Unless the reader has refused the text, the value is what it holds of it. */
  predicate HeldByReader(scalar: string -> bool, s: string, v: Value) {
    var st := Run(scalar, Repair(s, false));
    st.mode.Fail? || v == Recovered(scalar, st)
  }

  lemma RecoveryIsHeld(scalar: string -> bool, s: string)
    ensures HeldByReader(scalar, s, ParseStreaming(scalar, Some(s)))
  {
    if !Run(scalar, Repair(s, false)).mode.Fail? {
      RecoveryIsExact(scalar, s);
    }
  }

  /** The three attempts in order.  On a text the reader has not refused, what they come to is what the
      reader holds. */
  method ParseStreamingJson(scalar: string -> bool, partial: Option<string>) returns (v: Value)
    ensures v == ParseStreaming(scalar, partial)
    ensures partial.Some? ==> HeldByReader(scalar, partial.value, v)
  {
    if partial.Some? {
      RecoveryIsHeld(scalar, partial.value);
    }
    if partial.None? || IsBlank(partial.value) {
      return Obj([]);
    }
    var whole := ParseJsonWithRepair(scalar, partial.value);
    if whole.Some? {
      return whole.value;
    }
    var completed := ReadCompleted(scalar, partial.value);
    if completed.Some? {
      return completed.value;
    }
    var candidates := TruncationCandidates(partial.value);
    v := LastReadable(scalar, candidates);
  }
}
