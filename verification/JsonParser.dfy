/** The JSON reader the repairer feeds, as a pushdown automaton over characters.

    The reader itself is a library and not part of this repository; this is the RFC 8259 grammar
    with the library's nesting limit.  Which words are scalars (the three names and the numbers
    the library can represent) is left to the predicate `scalar`, so every result holds for every
    choice of it. */
module JsonParser {
  import opened Wrappers
  import opened Text
  import opened JsonRepair

  datatype Value =
    | Scalar(word: string)
    | Str(text: string)
    | Arr(items: seq<Value>)
    | Obj(members: seq<Member>)

  /** Members keep their textual order; on equal keys the last one counts. */
  datatype Member = Member(key: string, value: Value)

  datatype Frame =
    | ArrFrame(items: seq<Value>)
    | ObjFrame(members: seq<Member>, key: string)

  datatype Mode =
    | Fail
    | ExpectValue
    | ExpectValueOrClose
    | ExpectKey
    | ExpectKeyOrClose
    | AfterKey
    | AfterValue
    | InString(raw: string, escaped: bool, isKey: bool)
    | InWord(word: string)
    | Done(result: Value)

  datatype State = State(stack: seq<Frame>, mode: Mode)

  const START := State([], ExpectValue)
  const FAILED := State([], Fail)

  /** The library refuses a text nested deeper than this. */
  const MAX_DEPTH := 127

  predicate IsJsonSpace(c: char) {
    c == ' ' || c == '\t' || c == '\n' || c == '\r'
  }

  predicate IsCloser(c: char) {
    c == '}' || c == ']'
  }

  predicate IsPunctuation(c: char) {
    c == '{' || c == '[' || IsCloser(c) || c == ',' || c == ':' || c == '"'
  }

  predicate IsWordChar(c: char) {
    !IsPunctuation(c) && !IsWhitespace(c)
  }

  /** Hand a finished value to the innermost open container. */
  function Deliver(stack: seq<Frame>, v: Value): State {
    if stack == [] then State([], Done(v))
    else
      var top := stack[|stack| - 1];
      var below := stack[..|stack| - 1];
      match top
      case ArrFrame(items) => State(below + [ArrFrame(items + [v])], AfterValue)
      case ObjFrame(members, key) => State(below + [ObjFrame(members + [Member(key, v)], "")], AfterValue)
  }

  function Push(stack: seq<Frame>, frame: Frame, mode: Mode): State {
    if |stack| >= MAX_DEPTH then FAILED else State(stack + [frame], mode)
  }

  function BeginValue(stack: seq<Frame>, c: char): State {
    if c == '{' then Push(stack, ObjFrame([], ""), ExpectKeyOrClose)
    else if c == '[' then Push(stack, ArrFrame([]), ExpectValueOrClose)
    else if c == '"' then State(stack, InString("", false, false))
    else if IsWordChar(c) then State(stack, InWord([c]))
    else FAILED
  }

  function Close(stack: seq<Frame>, c: char): State {
    if stack == [] then FAILED
    else
      match stack[|stack| - 1]
      case ArrFrame(items) => if c == ']' then Deliver(stack[..|stack| - 1], Arr(items)) else FAILED
      case ObjFrame(members, _) => if c == '}' then Deliver(stack[..|stack| - 1], Obj(members)) else FAILED
  }

  /** After a complete value: white space, a comma or a closer. */
  function Continue(st: State, c: char): State
  {
    if IsJsonSpace(c) then st
    else if IsCloser(c) then Close(st.stack, c)
    else if c == ',' && st.stack != [] then
      State(st.stack, if st.stack[|st.stack| - 1].ArrFrame? then ExpectValue else ExpectKey)
    else FAILED
  }

  function EndString(stack: seq<Frame>, raw: string, isKey: bool): State {
    match Decode(raw)
    case None => FAILED
    case Some(text) =>
      if !isKey then Deliver(stack, Str(text))
      else if stack != [] && stack[|stack| - 1].ObjFrame? then
        State(stack[..|stack| - 1] + [ObjFrame(stack[|stack| - 1].members, text)], AfterKey)
      else FAILED
  }

  function Step(scalar: string -> bool, st: State, c: char): State {
    match st.mode
    case Fail => FAILED
    case InString(raw, escaped, isKey) =>
      if escaped then State(st.stack, InString(raw + [c], false, isKey))
      else if c == '\\' then State(st.stack, InString(raw + [c], true, isKey))
      else if c == '"' then EndString(st.stack, raw, isKey)
      else State(st.stack, InString(raw + [c], false, isKey))
    case InWord(word) =>
      if IsWordChar(c) then State(st.stack, InWord(word + [c]))
      else if scalar(word) then Continue(Deliver(st.stack, Scalar(word)), c)
      else FAILED
    case AfterValue => Continue(st, c)
    case Done(_) => Continue(st, c)
    case ExpectValue => if IsJsonSpace(c) then st else BeginValue(st.stack, c)
    case ExpectValueOrClose =>
      if IsJsonSpace(c) then st else if IsCloser(c) then Close(st.stack, c) else BeginValue(st.stack, c)
    case ExpectKey =>
      if IsJsonSpace(c) then st
      else if c == '"' then State(st.stack, InString("", false, true))
      else FAILED
    case ExpectKeyOrClose =>
      if IsJsonSpace(c) then st
      else if IsCloser(c) then Close(st.stack, c)
      else if c == '"' then State(st.stack, InString("", false, true))
      else FAILED
    case AfterKey =>
      if IsJsonSpace(c) then st
      else if c == ':' then State(st.stack, ExpectValue)
      else FAILED
  }

  function RunFrom(scalar: string -> bool, st: State, s: string): State {
    if s == [] then st else Step(scalar, RunFrom(scalar, st, s[..|s| - 1]), s[|s| - 1])
  }

  function Run(scalar: string -> bool, s: string): State {
    RunFrom(scalar, START, s)
  }

  function Parse(scalar: string -> bool, s: string): Option<Value> {
    var st := Run(scalar, s);
    if st.stack != [] then None
    else
      match st.mode
      case Done(v) => Some(v)
      case InWord(word) => if scalar(word) then Some(Scalar(word)) else None
      case _ => None
  }

  lemma {:induction false} RunAppend(scalar: string -> bool, a: string, b: string)
    ensures Run(scalar, a + b) == RunFrom(scalar, Run(scalar, a), b)
    decreases |b|
  {
    if b == [] {
      assert a + b == a;
    } else {
      assert (a + b)[..|a + b| - 1] == a + b[..|b| - 1];
      RunAppend(scalar, a, b[..|b| - 1]);
    }
  }

  lemma RunSnoc(scalar: string -> bool, a: string, c: char)
    ensures Run(scalar, a + [c]) == Step(scalar, Run(scalar, a), c)
  {
    assert (a + [c])[..|a + [c]| - 1] == a;
  }
}
