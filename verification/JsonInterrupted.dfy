/** What a cut-off text recovers to: exactly what the reader had of it, with every open container
    closed. */
module JsonInterrupted {
  import opened Wrappers
  import opened Text
  import opened JsonRepair
  import opened JsonParser
  import opened JsonCompletion
  import opened JsonScanners
  import opened JsonStreaming
  import opened JsonCuts
  import opened JsonRecovery

  // ---------------------------------------------------------------------
  // The value of a reader that is interrupted.

  /** A container with what it holds so far. */
  function FrameValue(frame: Frame): Value {
    match frame
    case ArrFrame(items) => Arr(items)
    case ObjFrame(members, _) => Obj(members)
  }

  /** A container with one value more. */
  function Holding(frame: Frame, v: Value): Frame {
    match frame
    case ArrFrame(items) => ArrFrame(items + [v])
    case ObjFrame(members, key) => ObjFrame(members + [Member(key, v)], "")
  }

  /** The innermost container with one value more. */
  function Delivered(stack: seq<Frame>, v: Value): seq<Frame>
    requires stack != []
  {
    stack[..|stack| - 1] + [Holding(stack[|stack| - 1], v)]
  }

  /** The innermost container handed to the one around it. */
  function Folded(stack: seq<Frame>): seq<Frame>
    requires |stack| > 1
  {
    Delivered(stack[..|stack| - 1], FrameValue(stack[|stack| - 1]))
  }

  /** The open containers closed, innermost first, each in the one around it. */
  function Wrapped(stack: seq<Frame>): Value
    requires stack != []
    decreases |stack|
  {
    if |stack| == 1 then FrameValue(stack[0]) else Wrapped(Folded(stack))
  }

  /** The containers with the value being read in its place, as far as there is one: a string as it
      stands, a word that is a scalar.  After a key there is none. */
  function Held(scalar: string -> bool, st: State): Option<seq<Frame>>
    requires st.stack != []
  {
    match st.mode
    case AfterValue => Some(st.stack)
    case ExpectValueOrClose => Some(st.stack)
    case ExpectKeyOrClose => Some(st.stack)
    case ExpectKey => Some(st.stack)
    case ExpectValue => if st.stack[|st.stack| - 1].ArrFrame? then Some(st.stack) else None
    case InString(raw, _, isKey) =>
      if isKey || Decode(raw).None? then None else Some(Delivered(st.stack, Str(Decode(raw).value)))
    case InWord(word) => if scalar(word) then Some(Delivered(st.stack, Scalar(word))) else None
    case _ => None
  }

  // ---------------------------------------------------------------------
  // Closing what is open.

  lemma DeliverHolds(stack: seq<Frame>, v: Value)
    requires stack != []
    ensures Deliver(stack, v) == State(Delivered(stack, v), AfterValue)
  {
  }

  function CloserOf(frame: Frame): char {
    if frame.ArrFrame? then ']' else '}'
  }

  /** Closing the innermost container leaves the reader after a value, or done. */
  lemma CloseOne(stack: seq<Frame>)
    requires stack != []
    ensures var st := Close(stack, CloserOf(stack[|stack| - 1]));
            if |stack| == 1 then st == State([], Done(FrameValue(stack[0])))
            else st == State(Folded(stack), AfterValue)
  {
    if |stack| > 1 {
      DeliverHolds(stack[..|stack| - 1], FrameValue(stack[|stack| - 1]));
    }
  }

  lemma ClosersAfterOne(stack: seq<Frame>)
    requires |stack| > 1
    ensures ClosersOf(Folded(stack)) == ClosersOf(stack[..|stack| - 1])
  {
    var below := stack[..|stack| - 1];
    ClosersOfSnoc(below[..|below| - 1], Holding(below[|below| - 1], FrameValue(stack[|stack| - 1])));
  }

  lemma ClosersSplit(text: string, stack: seq<Frame>)
    requires stack != []
    ensures var c := CloserOf(stack[|stack| - 1]);
            text + Reversed(ClosersOf(stack)) == (text + [c]) + Reversed(ClosersOf(stack[..|stack| - 1]))
  {
    var c := CloserOf(stack[|stack| - 1]);
    var rest := ClosersOf(stack[..|stack| - 1]);
    assert ClosersOf(stack) == rest + [c] && (rest + [c])[..|rest|] == rest;
    AppendAssociates(text, [c], Reversed(rest));
  }

  /** Reading the owed closers after a value yields the wrapped value. */
  lemma {:induction false} ReadClosers(scalar: string -> bool, text: string, stack: seq<Frame>)
    requires stack != [] && Run(scalar, text) == State(stack, AfterValue)
    ensures Run(scalar, text + Reversed(ClosersOf(stack))) == State([], Done(Wrapped(stack)))
    decreases |stack|, 1
  {
    RunSnoc(scalar, text, CloserOf(stack[|stack| - 1]));
    ClosersReadFrom(scalar, text, stack);
    ClosersSplit(text, stack);
  }

  /** The first closer, read where the reader holds `held`, and the others after it. */
  lemma {:induction false} ClosersReadFrom(scalar: string -> bool, text: string, held: seq<Frame>)
    requires held != []
    requires var c := CloserOf(held[|held| - 1]);
             Run(scalar, text + [c]) == Close(held, c)
    ensures var c := CloserOf(held[|held| - 1]);
            Run(scalar, (text + [c]) + Reversed(ClosersOf(held[..|held| - 1]))) == State([], Done(Wrapped(held)))
    decreases |held|, 0
  {
    var c := CloserOf(held[|held| - 1]);
    CloseOne(held);
    if |held| == 1 {
      assert held[..0] == [] && (text + [c]) + [] == text + [c];
    } else {
      ClosersAfterOne(held);
      ReadClosers(scalar, text + [c], Folded(held));
    }
  }

  // ---------------------------------------------------------------------
  // The closer reads where the text was cut, after what the completer prunes.

  /** The reader expects something after a comma. */
  predicate AfterComma(st: State) {
    st.stack != [] && (st.mode.ExpectKey? || (st.mode.ExpectValue? && st.stack[|st.stack| - 1].ArrFrame?))
  }

  /** What led there: white space, or a comma where a value had been read. */
  lemma LedToComma(scalar: string -> bool, st: State, c: char)
    requires AfterComma(Step(scalar, st, c)) && WellShaped(st)
    ensures !st.mode.InString? && !st.mode.Fail?
    ensures IsWhitespace(c) || c == ','
    ensures IsWhitespace(c) ==> Step(scalar, st, c) == st
    ensures c == ',' ==> st.mode.AfterValue? || (st.mode.InWord? && scalar(st.mode.word))
  {
    if st.mode.InWord? && !IsWordChar(c) && scalar(st.mode.word) {
      var next := Deliver(st.stack, Scalar(st.mode.word));
      assert next.mode.Done? || next.mode.AfterValue?;
    }
  }

  /** A comma leads to the stack that a closer in its place would close. */
  lemma CloserForComma(scalar: string -> bool, st: State, c: char)
    requires st.mode.AfterValue? || (st.mode.InWord? && scalar(st.mode.word))
    requires !Step(scalar, st, ',').mode.Fail? && IsCloser(c)
    ensures Step(scalar, st, c) == Close(Step(scalar, st, ',').stack, c)
  {
    if st.mode.InWord? {
      var next := Deliver(st.stack, Scalar(st.mode.word));
      assert next.mode.Done? || next.mode.AfterValue?;
    }
  }

  /** Trimmed, a text after which something is expected ends in the comma; without it, the closer reads. */
  lemma {:induction false} CommaIsPruned(scalar: string -> bool, text: string)
    requires AfterComma(Run(scalar, text))
    ensures var stack := Run(scalar, text).stack;
            var c := CloserOf(stack[|stack| - 1]);
            && EndsWith(TrimEnd(text), ',')
            && Run(scalar, DropComma(TrimEnd(text)) + [c]) == Close(stack, c)
    decreases |text|
  {
    var init, last := text[..|text| - 1], text[|text| - 1];
    var stack := Run(scalar, text).stack;
    ReaderAgreesWithSurvey(scalar, text);
    PrefixNotFailed(scalar, text);
    ReaderAgreesWithSurvey(scalar, init);
    LedToComma(scalar, Run(scalar, init), last);
    if IsWhitespace(last) {
      CommaIsPruned(scalar, init);
    } else {
      CloserForComma(scalar, Run(scalar, init), CloserOf(stack[|stack| - 1]));
      RunSnoc(scalar, init, CloserOf(stack[|stack| - 1]));
    }
  }

  lemma HeldKeepsClosers(scalar: string -> bool, st: State)
    requires st.stack != [] && Held(scalar, st).Some?
    ensures var held := Held(scalar, st).value;
            && |held| == |st.stack| && held[..|held| - 1] == st.stack[..|st.stack| - 1]
            && CloserOf(held[|held| - 1]) == CloserOf(st.stack[|st.stack| - 1])
  {
  }

  /** The reader is where a closer may follow at once. */
  predicate BeforeCloser(scalar: string -> bool, st: State) {
    st.mode.AfterValue? || st.mode.ExpectValueOrClose? || st.mode.ExpectKeyOrClose?
    || (st.mode.InWord? && scalar(st.mode.word))
  }

  lemma CloserReads(scalar: string -> bool, st: State)
    requires st.stack != [] && BeforeCloser(scalar, st) && WellShaped(st)
    ensures Held(scalar, st).Some? && |Held(scalar, st).value| == |st.stack|
    ensures var held := Held(scalar, st).value;
            var c := CloserOf(held[|held| - 1]);
            Step(scalar, st, c) == Close(held, c) && !Close(held, c).mode.Fail?
  {
    CloseOne(Held(scalar, st).value);
    if st.mode.InWord? {
      HeldKeepsClosers(scalar, st);
      CloserReadsAfterWord(scalar, st, CloserOf(st.stack[|st.stack| - 1]));
    } else {
      assert Held(scalar, st) == Some(st.stack);
    }
  }

  lemma CloserReadsAfterWord(scalar: string -> bool, st: State, c: char)
    requires st.stack != [] && st.mode.InWord? && scalar(st.mode.word) && IsCloser(c)
    ensures Step(scalar, st, c) == Close(Delivered(st.stack, Scalar(st.mode.word)), c)
  {
    DeliverHolds(st.stack, Scalar(st.mode.word));
  }

  lemma CloserReadsTrimmed(scalar: string -> bool, text: string)
    requires Run(scalar, text).stack != [] && BeforeCloser(scalar, Run(scalar, text))
    ensures Held(scalar, Run(scalar, text)).Some?
    ensures var held := Held(scalar, Run(scalar, text)).value;
            && |held| == |Run(scalar, text).stack|
            && var c := CloserOf(held[|held| - 1]);
               !EndsWith(TrimEnd(text), ':') && Run(scalar, DropComma(TrimEnd(text)) + [c]) == Close(held, c)
  {
    ReaderAgreesWithSurvey(scalar, text);
    CloserReads(scalar, Run(scalar, text));
    var held := Held(scalar, Run(scalar, text)).value;
    var c := CloserOf(held[|held| - 1]);
    TrimBeforeCloser(scalar, text, c);
    NoSeparatorBeforeCloser(scalar, TrimEnd(text), c);
    RunSnoc(scalar, TrimEnd(text), c);
  }

  /** Completing a text that is not in a string, whose reader holds `held`, reads as the wrapped value. */
  lemma ClosingReads(scalar: string -> bool, text: string)
    requires var st := Run(scalar, text);
             st.stack != [] && !st.mode.InString? && Held(scalar, st).Some?
    ensures var st := Run(scalar, text);
            var done := CloseAll(text, ClosersOf(st.stack));
            done.Some? && Run(scalar, done.value) == State([], Done(Wrapped(Held(scalar, st).value)))
  {
    var st := Run(scalar, text);
    var held := Held(scalar, st).value;
    var c := CloserOf(held[|held| - 1]);
    var rest := ClosersOf(held[..|held| - 1]);
    HeldKeepsClosers(scalar, st);
    if AfterComma(st) {
      CommaIsPruned(scalar, text);
    } else {
      CloserReadsTrimmed(scalar, text);
    }
    var t := DropComma(TrimEnd(text)) + [c];
    assert ClosersOf(st.stack) == rest + [c] && (rest + [c])[..|rest|] == rest;
    ClosersAreClosers(held[..|held| - 1]);
    CloseAllAfterCloser(t, rest);
    ClosersReadFrom(scalar, DropComma(TrimEnd(text)), held);
  }

  lemma {:induction false} ClosersAreClosers(stack: seq<Frame>)
    ensures forall i :: 0 <= i < |ClosersOf(stack)| ==> IsCloser(ClosersOf(stack)[i])
  {
    if stack != [] {
      ClosersAreClosers(stack[..|stack| - 1]);
    }
  }

  // ---------------------------------------------------------------------
  // The recovery.

  lemma ClosedStringHolds(scalar: string -> bool, text: string)
    requires var st := Run(scalar, text);
             st.stack != [] && st.mode.InString? && !st.mode.escaped && Held(scalar, st).Some?
    ensures Run(scalar, text + ['"']) == State(Held(scalar, Run(scalar, text)).value, AfterValue)
  {
    var st := Run(scalar, text);
    RunSnoc(scalar, text, '"');
    DeliverHolds(st.stack, Str(Decode(st.mode.raw).value));
  }

  /** The completion of a repaired text, once an open string has been closed. */
  lemma CompletionReads(scalar: string -> bool, s: string)
    requires var st := Run(scalar, Repair(s, false));
             st.stack != [] && !st.mode.Fail? && Held(scalar, st).Some?
    ensures var st := Run(scalar, Repair(s, false));
            Complete(s).Some? && Run(scalar, Complete(s).value) == State([], Done(Wrapped(Held(scalar, st).value)))
  {
    var r := Repair(s, false);
    var st := Run(scalar, r);
    CompleterTracksReader(scalar, r);
    CompleterKnowsItsText(r);
    ReaderAgreesWithSurvey(scalar, r);
    RepairedNeverEndsMidEscape(s);
    var c := CompleteRun(r).value;
    if st.mode.InString? {
      ClosedStringHolds(scalar, c.text);
      HeldKeepsClosers(scalar, st);
      SameClosers(st.stack, Held(scalar, st).value);
      ClosingReads(scalar, c.text + ['"']);
    } else {
      ClosingReads(scalar, c.text);
    }
  }

  lemma SameClosers(stack: seq<Frame>, held: seq<Frame>)
    requires stack != [] && |held| == |stack| && held[..|held| - 1] == stack[..|stack| - 1]
    requires CloserOf(held[|held| - 1]) == CloserOf(stack[|stack| - 1])
    ensures ClosersOf(held) == ClosersOf(stack)
  {
  }

  lemma NothingOpenInBlank(scalar: string -> bool, r: string)
    requires AllWhitespace(r) && !Run(scalar, r).mode.Fail?
    ensures Run(scalar, r).stack == []
  {
    BlankRun(scalar, r);
  }

  lemma OpenTextIsNotBlank(scalar: string -> bool, r: string)
    requires Run(scalar, r).stack != [] && !Run(scalar, r).mode.Fail?
    ensures !IsBlank(r)
  {
    if IsBlank(r) {
      BlankIsWhitespace(r);
      NothingOpenInBlank(scalar, r);
    }
  }

  /** A text the reader has not refused, cut off inside a container, recovers to exactly what the reader
      had of it, wherever it is cut but after a key: the value being read as far as it goes, every
      container closed. */
  lemma InterruptedTextReads(scalar: string -> bool, s: string)
    requires var st := Run(scalar, Repair(s, false));
             st.stack != [] && !st.mode.Fail? && Held(scalar, st).Some?
    ensures ParseStreaming(scalar, Some(s)) == Wrapped(Held(scalar, Run(scalar, Repair(s, false))).value)
  {
    var r := Repair(s, false);
    OpenTextIsNotBlank(scalar, r);
    BlankStaysBlank(s);
    ReadsAsRepaired(scalar, s);
    CompletionReads(scalar, s);
  }

  // ---------------------------------------------------------------------
  // What an interrupted reader says of the whole value.

  /** The reader is at a value that has to come. */
  predicate Reading(mode: Mode) {
    mode.ExpectValue? || mode.InWord? || (mode.InString? && !mode.isKey)
  }

  /** The whole value `w` begins, at every depth, with what the open containers hold; where a value is
      being read, `w` has one there, in an object under the key just read. */
  predicate Leads(stack: seq<Frame>, reading: bool, w: Value)
    requires stack != []
    decreases |stack|
  {
    match stack[0]
    case ArrFrame(items) =>
      && w.Arr? && items <= w.items
      && (reading || |stack| > 1 ==> |items| < |w.items|)
      && (|stack| > 1 ==> Leads(stack[1..], reading, w.items[|items|]))
    case ObjFrame(members, key) =>
      && w.Obj? && members <= w.members
      && (reading || |stack| > 1 ==> |members| < |w.members| && w.members[|members|].key == key)
      && (|stack| > 1 ==> Leads(stack[1..], reading, w.members[|members|].value))
  }

  /** The member of the whole value that the second frame is read for. */
  function Inner(frame: Frame, w: Value): Value
    requires match frame
             case ArrFrame(items) => w.Arr? && |items| < |w.items|
             case ObjFrame(members, _) => w.Obj? && |members| < |w.members|
  {
    match frame
    case ArrFrame(items) => w.items[|items|]
    case ObjFrame(members, _) => w.members[|members|].value
  }

  lemma {:induction false} LeadsWeaker(stack: seq<Frame>, w: Value)
    requires stack != [] && Leads(stack, true, w)
    ensures Leads(stack, false, w)
    decreases |stack|
  {
    if |stack| > 1 {
      LeadsWeaker(stack[1..], Inner(stack[0], w));
    }
  }

  lemma {:induction false} LeadsDelivered(stack: seq<Frame>, v: Value, w: Value)
    requires stack != [] && Leads(Delivered(stack, v), false, w)
    ensures Leads(stack, true, w)
    decreases |stack|
  {
    if |stack| > 1 {
      assert Delivered(stack, v)[1..] == Delivered(stack[1..], v);
      LeadsDelivered(stack[1..], v, Inner(stack[0], w));
    }
  }

  lemma {:induction false} LeadsPushed(stack: seq<Frame>, frame: Frame, w: Value)
    requires stack != [] && Leads(stack + [frame], false, w)
    ensures Leads(stack, true, w)
    decreases |stack|
  {
    if |stack| > 1 {
      assert (stack + [frame])[1..] == stack[1..] + [frame];
      LeadsPushed(stack[1..], frame, Inner(stack[0], w));
    }
  }

  lemma FoldedTail(stack: seq<Frame>)
    requires |stack| > 2
    ensures Folded(stack)[0] == stack[0] && Folded(stack)[1..] == Folded(stack[1..])
  {
    var below, tail, v := stack[..|stack| - 1], stack[1..], FrameValue(stack[|stack| - 1]);
    assert tail[..|tail| - 1] == below[1..];
    assert Delivered(below, v)[1..] == Delivered(below[1..], v);
  }

  lemma {:induction false} LeadsClosed(stack: seq<Frame>, w: Value)
    requires |stack| > 1 && Leads(Folded(stack), false, w)
    ensures Leads(stack, false, w)
    decreases |stack|
  {
    if |stack| == 2 {
      assert stack[1..] == [stack[1]];
    } else {
      FoldedTail(stack);
      LeadsClosed(stack[1..], Inner(stack[0], w));
    }
  }

  /** The key of the innermost container does not matter until its value is read. */
  lemma {:induction false} LeadsWhateverKey(below: seq<Frame>, members: seq<Member>, key: string, other: string,
                                            w: Value)
    requires Leads(below + [ObjFrame(members, other)], false, w)
    ensures Leads(below + [ObjFrame(members, key)], false, w)
    decreases |below|
  {
    if below != [] {
      assert (below + [ObjFrame(members, other)])[1..] == below[1..] + [ObjFrame(members, other)];
      assert (below + [ObjFrame(members, key)])[1..] == below[1..] + [ObjFrame(members, key)];
      LeadsWhateverKey(below[1..], members, key, other, Inner(below[0], w));
    }
  }

  predicate Fits(st: State, w: Value) {
    && (st.stack != [] ==> Leads(st.stack, Reading(st.mode), w))
    && (st.mode.Done? ==> st.mode.result == w)
  }

  lemma FitsBeforeClose(stack: seq<Frame>, c: char, w: Value)
    requires stack != [] && !Close(stack, c).mode.Fail? && Fits(Close(stack, c), w)
    ensures Leads(stack, false, w)
  {
    CloseOne(stack);
    if |stack| > 1 {
      LeadsClosed(stack, w);
    }
  }

  lemma FitsBeforeDeliver(stack: seq<Frame>, v: Value, w: Value)
    requires stack != [] && Fits(Deliver(stack, v), w)
    ensures Leads(stack, true, w)
  {
    LeadsDelivered(stack, v, w);
  }

  lemma FitsBeforeContinue(st: State, c: char, w: Value)
    requires st.mode.AfterValue? && st.stack != [] && !Continue(st, c).mode.Fail? && Fits(Continue(st, c), w)
    ensures Leads(st.stack, false, w)
  {
    if IsCloser(c) {
      FitsBeforeClose(st.stack, c, w);
    } else if c == ',' && st.stack[|st.stack| - 1].ArrFrame? {
      LeadsWeaker(st.stack, w);
    }
  }

  lemma FitsBeforeBegin(stack: seq<Frame>, c: char, w: Value)
    requires stack != [] && !BeginValue(stack, c).mode.Fail? && Fits(BeginValue(stack, c), w)
    ensures Leads(stack, true, w)
  {
    if c == '{' {
      LeadsPushed(stack, ObjFrame([], ""), w);
    } else if c == '[' {
      LeadsPushed(stack, ArrFrame([]), w);
    }
  }

  lemma FitsBeforeQuote(st: State, w: Value)
    requires st.stack != [] && st.mode.InString?
    requires var next := EndString(st.stack, st.mode.raw, st.mode.isKey);
             !next.mode.Fail? && Fits(next, w)
    ensures Leads(st.stack, Reading(st.mode), w)
  {
    var stack := st.stack;
    var text := Decode(st.mode.raw).value;
    if st.mode.isKey {
      var top := stack[|stack| - 1];
      LeadsWhateverKey(stack[..|stack| - 1], top.members, top.key, text, w);
      assert stack == stack[..|stack| - 1] + [ObjFrame(top.members, top.key)];
    } else {
      FitsBeforeDeliver(stack, Str(text), w);
    }
  }

  lemma FitsBeforeWord(scalar: string -> bool, st: State, c: char, w: Value)
    requires st.stack != [] && st.mode.InWord? && !Step(scalar, st, c).mode.Fail? && Fits(Step(scalar, st, c), w)
    ensures Leads(st.stack, true, w)
  {
    if !IsWordChar(c) {
      var next := Deliver(st.stack, Scalar(st.mode.word));
      FitsBeforeContinue(next, c, w);
      FitsBeforeDeliver(st.stack, Scalar(st.mode.word), w);
    }
  }

  /** Backwards over one character. */
  lemma FitsBefore(scalar: string -> bool, st: State, c: char, w: Value)
    requires WellShaped(st) && !Step(scalar, st, c).mode.Fail? && Fits(Step(scalar, st, c), w)
    ensures Fits(st, w)
  {
    if st.stack != [] {
      match st.mode {
        case InString(_, escaped, _) => if !escaped && c == '"' { FitsBeforeQuote(st, w); }
        case InWord(_) => FitsBeforeWord(scalar, st, c, w);
        case AfterValue => FitsBeforeContinue(st, c, w);
        case ExpectValue => FitsBeforeValue(scalar, st, c, w);
        case ExpectValueOrClose => FitsBeforeValue(scalar, st, c, w);
        case _ => FitsBeforeOther(scalar, st, c, w);
      }
    }
  }

  lemma FitsBeforeValue(scalar: string -> bool, st: State, c: char, w: Value)
    requires st.stack != [] && (st.mode.ExpectValue? || st.mode.ExpectValueOrClose?)
    requires !Step(scalar, st, c).mode.Fail? && Fits(Step(scalar, st, c), w)
    ensures Fits(st, w)
  {
    if st.mode.ExpectValueOrClose? && IsCloser(c) {
      FitsBeforeClose(st.stack, c, w);
    } else if !IsJsonSpace(c) {
      FitsBeforeBegin(st.stack, c, w);
      LeadsWeaker(st.stack, w);
    }
  }

  lemma FitsBeforeOther(scalar: string -> bool, st: State, c: char, w: Value)
    requires st.stack != [] && WellShaped(st)
    requires st.mode.ExpectKey? || st.mode.ExpectKeyOrClose? || st.mode.AfterKey? || st.mode.Done? || st.mode.Fail?
    requires !Step(scalar, st, c).mode.Fail? && Fits(Step(scalar, st, c), w)
    ensures Fits(st, w)
  {
    if st.mode.ExpectKeyOrClose? && IsCloser(c) {
      FitsBeforeClose(st.stack, c, w);
    } else if st.mode.AfterKey? && c == ':' {
      LeadsWeaker(st.stack, w);
    }
  }

  predicate Within(scalar: string -> bool, t: string, w: Value) {
    !Run(scalar, t).mode.Fail? && Fits(Run(scalar, t), w)
  }

  lemma WithinBefore(scalar: string -> bool, t: string, w: Value)
    requires t != [] && Within(scalar, t, w)
    ensures Within(scalar, t[..|t| - 1], w)
  {
    PrefixNotFailed(scalar, t);
    ReaderAgreesWithSurvey(scalar, t[..|t| - 1]);
    FitsBefore(scalar, Run(scalar, t[..|t| - 1]), t[|t| - 1], w);
  }

  /** At every point of a text that is accepted, the open containers lead to its value. */
  lemma {:induction false} PrefixLeads(scalar: string -> bool, s: string, t: string, w: Value)
    requires s <= t && Within(scalar, t, w)
    ensures Within(scalar, s, w)
    decreases |t|
  {
    if |s| == |t| {
      assert s == t;
    } else {
      WithinBefore(scalar, t, w);
      PrefixLeads(scalar, s, t[..|t| - 1], w);
    }
  }

  lemma ReadTextLeads(scalar: string -> bool, s: string, t: string, w: Value)
    requires s <= t && Parse(scalar, t) == Some(w) && Run(scalar, s).stack != []
    ensures !Run(scalar, s).mode.Fail? && Leads(Run(scalar, s).stack, Reading(Run(scalar, s).mode), w)
  {
    PrefixLeads(scalar, s, t, w);
  }

  lemma LeadsAnyway(stack: seq<Frame>, reading: bool, w: Value)
    requires stack != [] && Leads(stack, reading, w)
    ensures Leads(stack, false, w)
  {
    if reading {
      LeadsWeaker(stack, w);
    }
  }

  /** Cut a text that reads as `w`, inside a container: the recovery is what the reader had of the text,
      and every container it had open leads, at its own depth, to the corresponding one of `w`. */
  lemma CutTextReads(scalar: string -> bool, t: string, w: Value, cut: nat)
    requires ParseWithRepair(scalar, t) == Some(w) && cut <= |t|
    requires var st := Run(scalar, Repair(t[..cut], false));
             st.stack != [] && Held(scalar, st).Some?
    ensures var st := Run(scalar, Repair(t[..cut], false));
            && ParseStreaming(scalar, Some(t[..cut])) == Wrapped(Held(scalar, st).value)
            && Leads(st.stack, false, w)
  {
    var r, whole := Repair(t[..cut], false), Repair(t, false);
    ReadsAsRepaired(scalar, t);
    var p := CutRepair(t, cut, false);
    CutStackLeads(scalar, p, r, whole, w);
    InterruptedTextReads(scalar, t[..cut]);
  }

  lemma CutStackLeads(scalar: string -> bool, p: string, r: string, whole: string, w: Value)
    requires PartsAt(false, p, r, whole) && Parse(scalar, whole) == Some(w) && Run(scalar, r).stack != []
    ensures !Run(scalar, r).mode.Fail? && Leads(Run(scalar, r).stack, false, w)
  {
    PrefixLeads(scalar, p, whole, w);
    if r != p {
      PartsInString(scalar, p, r, |r|);
      assert r[..|r|] == r;
    }
    LeadsAnyway(Run(scalar, r).stack, Reading(Run(scalar, p).mode), w);
  }

  // ---------------------------------------------------------------------
  // A text cut inside a string.

  lemma {:induction false} ContentRepair(raw: string)
    requires !HasQuote(raw)
    ensures IsContent(Repair(raw, true))
    decreases |raw|
  {
    if raw != [] {
      var t := StringToken(raw);
      TokenIsContent(raw);
      ContentRepair(raw[t.consumed..]);
      ContentAppend(t.output, Repair(raw[t.consumed..], true));
    }
  }

  /** The reader is in a string value and holds `raw` of it. */
  predicate HasRead(scalar: string -> bool, s: string, stack: seq<Frame>, raw: string, escaped: bool) {
    Run(scalar, s) == State(stack, InString(raw, escaped, false))
  }

  lemma ReadOneMore(scalar: string -> bool, s: string, stack: seq<Frame>, raw: string, escaped: bool, c: char)
    requires HasRead(scalar, s, stack, raw, escaped) && (escaped || c != '"')
    ensures HasRead(scalar, s + [c], stack, raw + [c], !escaped && c == '\\')
  {
    RunSnoc(scalar, s, c);
  }

  lemma {:induction false} ReadContent(scalar: string -> bool, s: string, stack: seq<Frame>, raw: string, q: string)
    requires HasRead(scalar, s, stack, raw, false) && IsContent(q)
    ensures HasRead(scalar, s + q, stack, raw + q, false)
    decreases |q|
  {
    if q == [] {
      assert s + q == s && raw + q == raw;
    } else {
      ReadOneMore(scalar, s, stack, raw, false, q[0]);
      if q[0] != '\\' {
        assert q[..1] == [q[0]];
        ReadContent(scalar, s + q[..1], stack, raw + q[..1], q[1..]);
        ReadPieces(scalar, s, stack, raw, q, 1);
      } else {
        ReadOneMore(scalar, s + [q[0]], stack, raw + [q[0]], true, q[1]);
        AppendAssociates(s, [q[0]], [q[1]]);
        AppendAssociates(raw, [q[0]], [q[1]]);
        assert q[..2] == [q[0]] + [q[1]];
        ReadContent(scalar, s + q[..2], stack, raw + q[..2], q[2..]);
        ReadPieces(scalar, s, stack, raw, q, 2);
      }
    }
  }

  lemma ReadPieces(scalar: string -> bool, s: string, stack: seq<Frame>, raw: string, q: string, n: nat)
    requires n <= |q| && HasRead(scalar, (s + q[..n]) + q[n..], stack, (raw + q[..n]) + q[n..], false)
    ensures HasRead(scalar, s + q, stack, raw + q, false)
  {
    AppendAssociates(s, q[..n], q[n..]);
    AppendAssociates(raw, q[..n], q[n..]);
    assert q[..n] + q[n..] == q;
  }

  /** The text before `pre`'s end is read up to a value that has to come, or may. */
  predicate AtValue(scalar: string -> bool, pre: string) {
    var st := Run(scalar, Repair(pre, false));
    st.stack != [] && (st.mode.ExpectValue? || st.mode.ExpectValueOrClose?)
  }

  lemma RepairUpToString(scalar: string -> bool, pre: string, rest: string)
    requires AtValue(scalar, pre)
    ensures Repair(pre + rest, false) == Repair(pre, false) + Repair(rest, false)
  {
    NotInString(scalar, Repair(pre, false));
    ScannerTracksRepairer(pre, false);
    RepairSplits(pre, rest, false);
  }

  /** The text up to a value, its opening quote, and part of the string: the reader holds exactly the
      repaired part. */
  lemma ReadUpToCut(scalar: string -> bool, pre: string, raw: string)
    requires AtValue(scalar, pre) && !HasQuote(raw)
    ensures HasRead(scalar, Repair(pre + (['"'] + raw), false), Run(scalar, Repair(pre, false)).stack,
                    Repair(raw, true), false)
  {
    var r, q := Repair(pre, false), Repair(raw, true);
    RepairUpToString(scalar, pre, ['"'] + raw);
    OpeningQuote(raw);
    ContentRepair(raw);
    QuoteBeginsString(scalar, r);
    ReadContent(scalar, r + ['"'], Run(scalar, r).stack, "", q);
    AppendAssociates(r, ['"'], q);
    assert "" + q == q;
  }

  lemma QuoteBeginsString(scalar: string -> bool, r: string)
    requires Run(scalar, r).mode.ExpectValue? || Run(scalar, r).mode.ExpectValueOrClose?
    ensures HasRead(scalar, r + ['"'], Run(scalar, r).stack, "", false)
  {
    RunSnoc(scalar, r, '"');
  }

  lemma HeldString(scalar: string -> bool, r: string, stack: seq<Frame>, raw: string)
    requires HasRead(scalar, r, stack, raw, false) && stack != [] && Decode(raw).Some?
    ensures Held(scalar, Run(scalar, r))
         == Some(Delivered(stack, Str(Decode(raw).value)))
  {
  }

  /** Cut inside a string value at any depth, the recovery holds the value the string has up to the cut. */
  lemma InterruptedStringReads(scalar: string -> bool, s: string, pre: string, raw: string)
    requires s == pre + (['"'] + raw) && AtValue(scalar, pre) && !HasQuote(raw) && Lenient(raw).Some?
    ensures var stack := Run(scalar, Repair(pre, false)).stack;
            ParseStreaming(scalar, Some(s)) == Wrapped(Delivered(stack, Str(Lenient(raw).value)))
  {
    ReadUpToCut(scalar, pre, raw);
    RepairGivesLenientMeaning(raw);
    HeldString(scalar, Repair(s, false), Run(scalar, Repair(pre, false)).stack, Repair(raw, true));
    InterruptedTextReads(scalar, s);
  }

  predicate IsPlainPiece(p: string) {
    forall i :: 0 <= i < |p| ==> p[i] != '"' && p[i] != '\\'
  }

  /** A piece of a string without quote or backslash is its own value. */
  lemma {:induction false} PlainMeansItself(p: string)
    requires IsPlainPiece(p)
    ensures !HasQuote(p) && Lenient(p) == Some(p)
  {
    if p != [] {
      PlainMeansItself(p[1..]);
      assert p == [p[0]] + p[1..];
    }
  }

  // ---------------------------------------------------------------------
  // An object text, cut inside the value of one of its members.

  /** `recovered` is the first `k` members of `ms` and, under the next key, the value `v`. */
  predicate EndsWithMember(recovered: Value, ms: seq<Member>, k: nat, v: Value) {
    k < |ms| && recovered == Obj(ms[..k] + [Member(ms[k].key, v)])
  }

  /** The text up to `pre`'s end is the object's first members and the key and colon of the next. */
  predicate AtMember(scalar: string -> bool, pre: string, before: seq<Member>, key: string) {
    Run(scalar, Repair(pre, false)) == State([ObjFrame(before, key)], ExpectValue)
  }

  lemma MemberIsOriginal(scalar: string -> bool, t: string, ms: seq<Member>, pre: string,
                         before: seq<Member>, key: string)
    requires ParseWithRepair(scalar, t) == Some(Obj(ms)) && pre <= t && AtMember(scalar, pre, before, key)
    ensures |before| < |ms| && before == ms[..|before|] && key == ms[|before|].key
  {
    ReadsAsRepaired(scalar, t);
    RepairUpToString(scalar, pre, t[|pre|..]);
    assert t == pre + t[|pre|..];
    ReadTextLeads(scalar, Repair(pre, false), Repair(t, false), Obj(ms));
  }

  lemma CutBegins(t: string, cut: nat, pre: string, rest: string)
    requires cut <= |t| && t[..cut] == pre + rest
    ensures pre <= t
  {
  }

  lemma MemberIsHeld(recovered: Value, ms: seq<Member>, stack: seq<Frame>, before: seq<Member>, key: string,
                     v: Value)
    requires |before| < |ms| && before == ms[..|before|] && key == ms[|before|].key
    requires stack == [ObjFrame(before, key)] && recovered == Wrapped(Delivered(stack, v))
    ensures EndsWithMember(recovered, ms, |before|, v)
  {
    assert Delivered(stack, v) == [ObjFrame(before + [Member(key, v)], "")];
  }

  /** An object text is cut inside the string value of member k, whatever escapes, legal or not, stand
      before the cut: the recovery is the members before it and member k with the value that the part
      of its string before the cut is meant to have. */
  lemma CutInStringValue(scalar: string -> bool, t: string, ms: seq<Member>, cut: nat,
                         pre: string, before: seq<Member>, key: string, raw: string)
    requires ParseWithRepair(scalar, t) == Some(Obj(ms)) && cut <= |t|
    requires t[..cut] == pre + (['"'] + raw) && AtMember(scalar, pre, before, key)
    requires !HasQuote(raw) && Lenient(raw).Some?
    ensures EndsWithMember(ParseStreaming(scalar, Some(t[..cut])), ms, |before|, Str(Lenient(raw).value))
  {
    CutBegins(t, cut, pre, ['"'] + raw);
    MemberIsOriginal(scalar, t, ms, pre, before, key);
    InterruptedStringReads(scalar, t[..cut], pre, raw);
    MemberIsHeld(ParseStreaming(scalar, Some(t[..cut])), ms, Run(scalar, Repair(pre, false)).stack,
                 before, key, Str(Lenient(raw).value));
  }

  /** Without a quote or a backslash before the cut, that value is the characters before the cut. */
  lemma CutInPlainString(scalar: string -> bool, t: string, ms: seq<Member>, cut: nat,
                         pre: string, before: seq<Member>, key: string, p: string)
    requires ParseWithRepair(scalar, t) == Some(Obj(ms)) && cut <= |t|
    requires t[..cut] == pre + (['"'] + p) && AtMember(scalar, pre, before, key) && IsPlainPiece(p)
    ensures EndsWithMember(ParseStreaming(scalar, Some(t[..cut])), ms, |before|, Str(p))
  {
    PlainMeansItself(p);
    CutInStringValue(scalar, t, ms, cut, pre, before, key, p);
  }

  /** The text up to `s`'s end is the first members, the key of the next, and an array that holds `items`
      so far, with nothing after them but white space or a comma. */
  predicate InArrayOf(scalar: string -> bool, s: string, before: seq<Member>, key: string, items: seq<Value>) {
    var st := Run(scalar, Repair(s, false));
    && st.stack == [ObjFrame(before, key), ArrFrame(items)]
    && (st.mode.AfterValue? || st.mode.ExpectValue? || st.mode.ExpectValueOrClose?)
  }

  /** The items of an array that is read for member k begin the items of that member. */
  predicate BeginsItems(ms: seq<Member>, before: seq<Member>, key: string, items: seq<Value>) {
    && |before| < |ms| && before == ms[..|before|] && key == ms[|before|].key
    && ms[|before|].value.Arr? && items <= ms[|before|].value.items
  }

  lemma ArrayIsOriginal(before: seq<Member>, key: string, items: seq<Value>, reading: bool, ms: seq<Member>)
    requires Leads([ObjFrame(before, key), ArrFrame(items)], reading, Obj(ms))
    ensures BeginsItems(ms, before, key, items)
  {
    assert [ObjFrame(before, key), ArrFrame(items)][1..] == [ArrFrame(items)];
  }

  lemma WrappedArray(before: seq<Member>, key: string, items: seq<Value>)
    ensures Wrapped([ObjFrame(before, key), ArrFrame(items)]) == Obj(before + [Member(key, Arr(items))])
  {
    var stack := [ObjFrame(before, key), ArrFrame(items)];
    var folded := Holding(stack[0], Arr(items));
    assert stack[..0] + [folded] == [folded];
  }

  /** An object text is cut inside the array of member k, after its bracket, an item or a comma: the
      recovery is the members before it and member k with exactly the items before the cut. */
  lemma CutBetweenItems(scalar: string -> bool, t: string, ms: seq<Member>, cut: nat,
                        before: seq<Member>, key: string, items: seq<Value>)
    requires ParseWithRepair(scalar, t) == Some(Obj(ms)) && cut <= |t|
    requires InArrayOf(scalar, t[..cut], before, key, items)
    ensures BeginsItems(ms, before, key, items)
    ensures EndsWithMember(ParseStreaming(scalar, Some(t[..cut])), ms, |before|, Arr(items))
  {
    CutTextReads(scalar, t, Obj(ms), cut);
    ArrayIsOriginal(before, key, items, false, ms);
    WrappedArray(before, key, items);
  }

  /** Cut inside a string item, the array holds the items before it and the part of the string. */
  lemma CutInStringItem(scalar: string -> bool, t: string, ms: seq<Member>, cut: nat, pre: string,
                        before: seq<Member>, key: string, items: seq<Value>, raw: string)
    requires ParseWithRepair(scalar, t) == Some(Obj(ms)) && cut <= |t|
    requires t[..cut] == pre + (['"'] + raw) && InArrayOf(scalar, pre, before, key, items)
    requires AtValue(scalar, pre) && !HasQuote(raw) && Lenient(raw).Some?
    ensures BeginsItems(ms, before, key, items)
    ensures EndsWithMember(ParseStreaming(scalar, Some(t[..cut])), ms, |before|,
                           Arr(items + [Str(Lenient(raw).value)]))
  {
    CutBegins(t, cut, pre, ['"'] + raw);
    ArrayAtString(scalar, t, ms, pre, before, key, items);
    InterruptedStringReads(scalar, t[..cut], pre, raw);
    ItemIsHeld(ParseStreaming(scalar, Some(t[..cut])), ms, Run(scalar, Repair(pre, false)).stack,
               before, key, items, Str(Lenient(raw).value));
  }

  lemma ArrayAtString(scalar: string -> bool, t: string, ms: seq<Member>, pre: string,
                      before: seq<Member>, key: string, items: seq<Value>)
    requires ParseWithRepair(scalar, t) == Some(Obj(ms)) && pre <= t
    requires InArrayOf(scalar, pre, before, key, items) && AtValue(scalar, pre)
    ensures BeginsItems(ms, before, key, items)
  {
    assert t == pre + t[|pre|..];
    ReadsAsRepaired(scalar, t);
    RepairUpToString(scalar, pre, t[|pre|..]);
    ReadTextLeads(scalar, Repair(pre, false), Repair(t, false), Obj(ms));
    ArrayIsOriginal(before, key, items, Reading(Run(scalar, Repair(pre, false)).mode), ms);
  }

  lemma ItemIsHeld(recovered: Value, ms: seq<Member>, stack: seq<Frame>, before: seq<Member>, key: string,
                   items: seq<Value>, v: Value)
    requires BeginsItems(ms, before, key, items) && stack == [ObjFrame(before, key), ArrFrame(items)]
    requires recovered == Wrapped(Delivered(stack, v))
    ensures EndsWithMember(recovered, ms, |before|, Arr(items + [v]))
  {
    assert Delivered(stack, v) == [ObjFrame(before, key), ArrFrame(items + [v])];
    WrappedArray(before, key, items + [v]);
  }
}
