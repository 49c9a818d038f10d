/** Writing JSON values, so that the reader has a partner: what is written reads back. */
module JsonRender {
  import opened Wrappers
  import opened Text
  import opened JsonRepair
  import opened JsonParser
  import opened JsonRecovery
  import opened JsonStreaming
  import opened JsonCompletion

  /** A character as section 7 of RFC 8259 lets it stand in a string. */
  function EscapeChar(c: char): string {
    if c == '"' || c == '\\' then ['\\', c] else if IsControl(c) then EscapeControl(c) else [c]
  }

  function Escaped(s: string): string {
    if s == "" then "" else EscapeChar(s[0]) + Escaped(s[1..])
  }

  function Quoted(s: string): string {
    ['"'] + Escaped(s) + ['"']
  }

  function Render(v: Value): string
    decreases v, 0
  {
    match v
    case Scalar(word) => word
    case Str(text) => Quoted(text)
    case Arr(items) => ['['] + RenderItems(items) + [']']
    case Obj(members) => ['{'] + RenderMembers(members) + ['}']
  }

  function RenderItems(items: seq<Value>): string
    decreases items, 1
  {
    if items == [] then ""
    else
      var init := items[..|items| - 1];
      (if init == [] then "" else RenderItems(init) + [',']) + Render(items[|items| - 1])
  }

  function RenderMembers(members: seq<Member>): string
    decreases members, 1
  {
    if members == [] then ""
    else
      var init := members[..|members| - 1];
      var last := members[|members| - 1];
      (if init == [] then "" else RenderMembers(init) + [',']) + (Quoted(last.key) + [':'] + Render(last.value))
  }

  /** What can be written and read back at a nesting depth: scalars the reader knows, and no deeper
      nesting than it accepts. */
  ghost predicate Writable(scalar: string -> bool, v: Value, depth: nat)
    decreases v
  {
    match v
    case Scalar(word) => word != "" && scalar(word) && forall i :: 0 <= i < |word| ==> IsWordChar(word[i])
    case Str(_) => true
    case Arr(items) => depth < MAX_DEPTH && forall i :: 0 <= i < |items| ==> Writable(scalar, items[i], depth + 1)
    case Obj(members) =>
      depth < MAX_DEPTH && forall i :: 0 <= i < |members| ==> Writable(scalar, members[i].value, depth + 1)
  }

  /** The reader has the whole value: it has delivered it, or it is at the end of its word. */
  predicate Ready(scalar: string -> bool, st: State, stack: seq<Frame>, v: Value) {
    || st == Deliver(stack, v)
    || (v.Scalar? && scalar(v.word) && st == State(stack, InWord(v.word)))
  }

  lemma {:induction false} NextAfter(scalar: string -> bool, st: State, stack: seq<Frame>, v: Value, c: char)
    requires Ready(scalar, st, stack, v) && (c == ',' || IsCloser(c))
    ensures Step(scalar, st, c) == Continue(Deliver(stack, v), c)
  {
    var d := Deliver(stack, v);
    assert d.mode.Done? || d.mode.AfterValue?;
  }

  lemma {:induction false} RunFromAppend(scalar: string -> bool, st: State, a: string, b: string)
    ensures RunFrom(scalar, st, a + b) == RunFrom(scalar, RunFrom(scalar, st, a), b)
    decreases |b|
  {
    if b == [] {
      assert a + b == a;
    } else {
      assert (a + b)[..|a + b| - 1] == a + b[..|b| - 1];
      RunFromAppend(scalar, st, a, b[..|b| - 1]);
    }
  }

  lemma {:induction false} RunOne(scalar: string -> bool, st: State, c: char)
    ensures RunFrom(scalar, st, [c]) == Step(scalar, st, c)
  {
    assert [c][..0] == [];
  }

  lemma {:induction false} RunThen(scalar: string -> bool, st: State, a: string, c: char)
    ensures RunFrom(scalar, st, a + [c]) == Step(scalar, RunFrom(scalar, st, a), c)
  {
    assert (a + [c])[..|a|] == a;
  }

  // ---------------------------------------------------------------------
  // Strings.

  lemma {:induction false} EscapedCharDecodes(c: char, tail: string)
    ensures Decode(EscapeChar(c) + tail) == Cons(c, Decode(tail))
  {
    var r := EscapeChar(c) + tail;
    if c == '"' || c == '\\' {
      assert r[2..] == tail;
      DecodeShort(r, tail);
    } else if IsControl(c) {
      ControlMeaning(c, tail);
    } else {
      assert r[1..] == tail;
    }
  }

  /** Escaping is legal and loses nothing. */
  lemma {:induction false} EscapedDecodes(s: string)
    ensures Decode(Escaped(s)) == Some(s)
    decreases |s|
  {
    if s != "" {
      EscapedDecodes(s[1..]);
      EscapedCharDecodes(s[0], Escaped(s[1..]));
      assert [s[0]] + s[1..] == s;
    }
  }

  lemma {:induction false} StepPlain(scalar: string -> bool, stack: seq<Frame>, raw: string, c: char, isKey: bool)
    requires IsPlain(c)
    ensures Step(scalar, State(stack, InString(raw, false, isKey)), c)
         == State(stack, InString(raw + [c], false, isKey))
  {
  }

  lemma {:induction false} RunPlainSnoc(scalar: string -> bool, stack: seq<Frame>, raw: string, init: string,
                                        c: char, isKey: bool)
    requires var st := State(stack, InString(raw, false, isKey));
             RunFrom(scalar, st, init) == State(stack, InString(raw + init, false, isKey))
    requires Step(scalar, State(stack, InString(raw + init, false, isKey)), c)
          == State(stack, InString((raw + init) + [c], false, isKey))
    ensures RunFrom(scalar, State(stack, InString(raw, false, isKey)), init + [c])
         == State(stack, InString(raw + (init + [c]), false, isKey))
  {
    assert (init + [c])[..|init|] == init;
    assert (raw + init) + [c] == raw + (init + [c]);
  }

  lemma {:induction false} ReadPlain(scalar: string -> bool, stack: seq<Frame>, raw: string, p: string, isKey: bool)
    requires forall i :: 0 <= i < |p| ==> IsPlain(p[i])
    ensures RunFrom(scalar, State(stack, InString(raw, false, isKey)), p)
         == State(stack, InString(raw + p, false, isKey))
  {
    if p == [] {
      assert raw + p == raw;
    } else {
      var init, c := p[..|p| - 1], p[|p| - 1];
      ReadPlain(scalar, stack, raw, init, isKey);
      StepPlain(scalar, stack, raw + init, c, isKey);
      RunPlainSnoc(scalar, stack, raw, init, c, isKey);
      assert p == init + [c];
    }
  }

  lemma {:induction false} ReadBackslash(scalar: string -> bool, stack: seq<Frame>, raw: string, p: string, isKey: bool)
    requires |p| >= 2 && p[0] == '\\' && forall i :: 2 <= i < |p| ==> IsPlain(p[i])
    ensures RunFrom(scalar, State(stack, InString(raw, false, isKey)), p)
         == State(stack, InString(raw + p, false, isKey))
  {
    var st := State(stack, InString(raw, false, isKey));
    assert p == [p[0]] + ([p[1]] + p[2..]);
    RunFromAppend(scalar, st, [p[0]], [p[1]] + p[2..]);
    RunOne(scalar, st, p[0]);
    var escaped := State(stack, InString(raw + [p[0]], true, isKey));
    RunFromAppend(scalar, escaped, [p[1]], p[2..]);
    RunOne(scalar, escaped, p[1]);
    ReadPlain(scalar, stack, (raw + [p[0]]) + [p[1]], p[2..], isKey);
    assert ((raw + [p[0]]) + [p[1]]) + p[2..] == raw + p;
  }

  lemma {:induction false} ReadEscapedChar(scalar: string -> bool, stack: seq<Frame>, raw: string, c: char, isKey: bool)
    ensures RunFrom(scalar, State(stack, InString(raw, false, isKey)), EscapeChar(c))
         == State(stack, InString(raw + EscapeChar(c), false, isKey))
  {
    if c == '"' || c == '\\' || IsControl(c) {
      ReadBackslash(scalar, stack, raw, EscapeChar(c), isKey);
    } else {
      ReadPlain(scalar, stack, raw, [c], isKey);
    }
  }

  lemma {:induction false} ReadEscaped(scalar: string -> bool, stack: seq<Frame>, raw: string, s: string, isKey: bool)
    ensures RunFrom(scalar, State(stack, InString(raw, false, isKey)), Escaped(s))
         == State(stack, InString(raw + Escaped(s), false, isKey))
    decreases |s|
  {
    if s == "" {
      assert raw + "" == raw;
    } else {
      var head, tail := EscapeChar(s[0]), Escaped(s[1..]);
      ReadEscapedChar(scalar, stack, raw, s[0], isKey);
      ReadEscaped(scalar, stack, raw + head, s[1..], isKey);
      ReadJoined(scalar, stack, raw, head, tail, isKey);
    }
  }

  lemma {:induction false} ReadTwo(scalar: string -> bool, st: State, a: string, between: State, b: string)
    requires RunFrom(scalar, st, a) == between
    ensures RunFrom(scalar, st, a + b) == RunFrom(scalar, between, b)
  {
    RunFromAppend(scalar, st, a, b);
  }

  lemma {:induction false} ReadJoined(
    scalar: string -> bool, stack: seq<Frame>, raw: string, head: string, tail: string, isKey: bool)
    requires RunFrom(scalar, State(stack, InString(raw, false, isKey)), head)
          == State(stack, InString(raw + head, false, isKey))
    requires RunFrom(scalar, State(stack, InString(raw + head, false, isKey)), tail)
          == State(stack, InString((raw + head) + tail, false, isKey))
    ensures RunFrom(scalar, State(stack, InString(raw, false, isKey)), head + tail)
         == State(stack, InString(raw + (head + tail), false, isKey))
  {
    ReadTwo(scalar, State(stack, InString(raw, false, isKey)), head,
            State(stack, InString(raw + head, false, isKey)), tail);
    AppendAssociates(raw, head, tail);
  }

  /** A quoted string, read where a string may begin, ends as that string. */
  lemma {:induction false} ReadQuoted(scalar: string -> bool, st: State, s: string, isKey: bool)
    requires Step(scalar, st, '"') == State(st.stack, InString("", false, isKey))
    ensures RunFrom(scalar, st, Quoted(s)) == EndString(st.stack, Escaped(s), isKey)
    ensures Decode(Escaped(s)) == Some(s)
  {
    EscapedDecodes(s);
    var inside := State(st.stack, InString("", false, isKey));
    RunFromAppend(scalar, st, ['"'] + Escaped(s), ['"']);
    RunFromAppend(scalar, st, ['"'], Escaped(s));
    RunOne(scalar, st, '"');
    ReadEscaped(scalar, st.stack, "", s, isKey);
    assert "" + Escaped(s) == Escaped(s);
    RunOne(scalar, State(st.stack, InString(Escaped(s), false, isKey)), '"');
  }

  // ---------------------------------------------------------------------
  // Values.

  lemma {:induction false} ReadWord(scalar: string -> bool, st: State, word: string)
    requires st.mode.ExpectValue? || st.mode.ExpectValueOrClose?
    requires word != "" && forall i :: 0 <= i < |word| ==> IsWordChar(word[i])
    ensures RunFrom(scalar, st, word) == State(st.stack, InWord(word))
  {
    var init, c := word[..|word| - 1], word[|word| - 1];
    if init == "" {
      assert word == [c];
      RunOne(scalar, st, c);
    } else {
      ReadWord(scalar, st, init);
      assert init + [c] == word;
    }
  }

  predicate ExpectsValue(st: State) {
    st.mode.ExpectValue? || st.mode.ExpectValueOrClose?
  }

  lemma {:induction false} ReadValue(scalar: string -> bool, st: State, v: Value)
    requires ExpectsValue(st) && Writable(scalar, v, |st.stack|)
    ensures Ready(scalar, RunFrom(scalar, st, Render(v)), st.stack, v)
    decreases v, 0
  {
    match v {
      case Scalar(word) => ReadWord(scalar, st, word);
      case Str(text) => ReadQuoted(scalar, st, text, false);
      case Arr(items) =>
        if items != [] {
          ReadItems(scalar, st, items);
        }
        ReadArray(scalar, st, items);
      case Obj(members) =>
        if members != [] {
          ReadMembers(scalar, st, members);
        }
        ReadObject(scalar, st, members);
    }
  }

  function InsideArray(st: State): State {
    State(st.stack + [ArrFrame([])], ExpectValueOrClose)
  }

  function InsideObject(st: State): State {
    State(st.stack + [ObjFrame([], "")], ExpectKeyOrClose)
  }

  lemma {:induction false} ReadArray(scalar: string -> bool, st: State, items: seq<Value>)
    requires ExpectsValue(st) && |st.stack| < MAX_DEPTH
    requires items != [] ==>
      Ready(scalar, RunFrom(scalar, InsideArray(st), RenderItems(items)),
            st.stack + [ArrFrame(items[..|items| - 1])], items[|items| - 1])
    ensures RunFrom(scalar, st, Render(Arr(items))) == Deliver(st.stack, Arr(items))
  {
    var body := RenderItems(items);
    OpenArray(scalar, st);
    Bracketed(scalar, st, '[', body, ']', InsideArray(st));
    if items == [] {
      CloseEmptyArray(scalar, st);
    } else {
      CloseArray(scalar, RunFrom(scalar, InsideArray(st), body), st.stack, items);
    }
  }

  lemma OpenArray(scalar: string -> bool, st: State)
    requires ExpectsValue(st) && |st.stack| < MAX_DEPTH
    ensures Step(scalar, st, '[') == InsideArray(st)
  {
  }

  lemma CloseEmptyArray(scalar: string -> bool, st: State)
    ensures RunFrom(scalar, InsideArray(st), RenderItems([])) == InsideArray(st)
    ensures Step(scalar, InsideArray(st), ']') == Deliver(st.stack, Arr([]))
  {
    assert (st.stack + [ArrFrame([])])[..|st.stack|] == st.stack;
  }

  lemma {:induction false} CloseArray(scalar: string -> bool, st: State, below: seq<Frame>, items: seq<Value>)
    requires items != [] && Ready(scalar, st, below + [ArrFrame(items[..|items| - 1])], items[|items| - 1])
    ensures Step(scalar, st, ']') == Deliver(below, Arr(items))
  {
    var stack := below + [ArrFrame(items[..|items| - 1])];
    NextAfter(scalar, st, stack, items[|items| - 1], ']');
    assert stack[..|below|] == below;
    assert items[..|items| - 1] + [items[|items| - 1]] == items;
    assert (below + [ArrFrame(items)])[..|below|] == below;
  }

  lemma {:induction false} Bracketed(scalar: string -> bool, st: State, opener: char, body: string, closer: char,
                                     inside: State)
    requires Step(scalar, st, opener) == inside
    ensures RunFrom(scalar, st, [opener] + body + [closer]) == Step(scalar, RunFrom(scalar, inside, body), closer)
  {
    RunFromAppend(scalar, st, [opener] + body, [closer]);
    RunFromAppend(scalar, st, [opener], body);
    RunOne(scalar, st, opener);
    RunOne(scalar, RunFrom(scalar, inside, body), closer);
  }

  lemma {:induction false} ReadItems(scalar: string -> bool, st: State, items: seq<Value>)
    requires items != [] && |st.stack| < MAX_DEPTH
    requires forall i :: 0 <= i < |items| ==> Writable(scalar, items[i], |st.stack| + 1)
    ensures Ready(scalar, RunFrom(scalar, InsideArray(st), RenderItems(items)),
                  st.stack + [ArrFrame(items[..|items| - 1])], items[|items| - 1])
    decreases items, 1
  {
    var init, last := items[..|items| - 1], items[|items| - 1];
    if init == [] {
      RenderItemsEnds(init, last);
      assert items == [last];
      ReadValue(scalar, InsideArray(st), last);
    } else {
      ReadItems(scalar, st, init);
      ReadValue(scalar, State(st.stack + [ArrFrame(init)], ExpectValue), last);
      ReadNextItem(scalar, st, init, last);
      assert items == init + [last];
    }
  }

  lemma {:induction false} RenderItemsEnds(init: seq<Value>, last: Value)
    ensures RenderItems(init + [last])
         == if init == [] then Render(last) else RenderItems(init) + [','] + Render(last)
  {
    assert (init + [last])[..|init|] == init;
  }

  lemma {:induction false} ReadNextItem(scalar: string -> bool, st: State, init: seq<Value>, last: Value)
    requires init != []
    requires Ready(scalar, RunFrom(scalar, InsideArray(st), RenderItems(init)),
                   st.stack + [ArrFrame(init[..|init| - 1])], init[|init| - 1])
    requires var between := State(st.stack + [ArrFrame(init)], ExpectValue);
             Ready(scalar, RunFrom(scalar, between, Render(last)), between.stack, last)
    ensures Ready(scalar, RunFrom(scalar, InsideArray(st), RenderItems(init + [last])),
                  st.stack + [ArrFrame(init)], last)
  {
    RenderItemsEnds(init, last);
    NextItem(scalar, st, init);
    ReadTwo(scalar, InsideArray(st), RenderItems(init) + [','],
            State(st.stack + [ArrFrame(init)], ExpectValue), Render(last));
  }

  lemma {:induction false} NextItem(scalar: string -> bool, st: State, init: seq<Value>)
    requires init != []
    requires Ready(scalar, RunFrom(scalar, InsideArray(st), RenderItems(init)),
                   st.stack + [ArrFrame(init[..|init| - 1])], init[|init| - 1])
    ensures RunFrom(scalar, InsideArray(st), RenderItems(init) + [','])
         == State(st.stack + [ArrFrame(init)], ExpectValue)
  {
    RunThen(scalar, InsideArray(st), RenderItems(init), ',');
    CommaAfterItem(scalar, RunFrom(scalar, InsideArray(st), RenderItems(init)), st.stack, init);
  }

  lemma {:induction false} CommaAfterItem(scalar: string -> bool, st: State, below: seq<Frame>, items: seq<Value>)
    requires items != [] && Ready(scalar, st, below + [ArrFrame(items[..|items| - 1])], items[|items| - 1])
    ensures Step(scalar, st, ',') == State(below + [ArrFrame(items)], ExpectValue)
  {
    var stack := below + [ArrFrame(items[..|items| - 1])];
    NextAfter(scalar, st, stack, items[|items| - 1], ',');
    assert stack[..|below|] == below;
    assert items[..|items| - 1] + [items[|items| - 1]] == items;
  }

  lemma {:induction false} ReadObject(scalar: string -> bool, st: State, members: seq<Member>)
    requires ExpectsValue(st) && |st.stack| < MAX_DEPTH
    requires members != [] ==>
      Ready(scalar, RunFrom(scalar, InsideObject(st), RenderMembers(members)),
            st.stack + [ObjFrame(members[..|members| - 1], members[|members| - 1].key)], members[|members| - 1].value)
    ensures RunFrom(scalar, st, Render(Obj(members))) == Deliver(st.stack, Obj(members))
  {
    var body := RenderMembers(members);
    OpenObject(scalar, st);
    Bracketed(scalar, st, '{', body, '}', InsideObject(st));
    if members == [] {
      CloseEmptyObject(scalar, st);
    } else {
      CloseObject(scalar, RunFrom(scalar, InsideObject(st), body), st.stack, members);
    }
  }

  lemma OpenObject(scalar: string -> bool, st: State)
    requires ExpectsValue(st) && |st.stack| < MAX_DEPTH
    ensures Step(scalar, st, '{') == InsideObject(st)
  {
  }

  lemma CloseEmptyObject(scalar: string -> bool, st: State)
    ensures RunFrom(scalar, InsideObject(st), RenderMembers([])) == InsideObject(st)
    ensures Step(scalar, InsideObject(st), '}') == Deliver(st.stack, Obj([]))
  {
    assert (st.stack + [ObjFrame([], "")])[..|st.stack|] == st.stack;
  }

  lemma {:induction false} CloseObject(scalar: string -> bool, st: State, below: seq<Frame>, members: seq<Member>)
    requires members != []
    requires var last := members[|members| - 1];
             Ready(scalar, st, below + [ObjFrame(members[..|members| - 1], last.key)], last.value)
    ensures Step(scalar, st, '}') == Deliver(below, Obj(members))
  {
    var last := members[|members| - 1];
    var stack := below + [ObjFrame(members[..|members| - 1], last.key)];
    NextAfter(scalar, st, stack, last.value, '}');
    assert stack[..|below|] == below;
    assert members[..|members| - 1] + [last] == members;
    assert (below + [ObjFrame(members, "")])[..|below|] == below;
  }

  /** A member, read where a key may begin. */
  lemma {:induction false} ReadMember(scalar: string -> bool, stack: seq<Frame>, mode: Mode, init: seq<Member>,
                                      key: string, m: Member)
    requires mode == ExpectKey || mode == ExpectKeyOrClose
    requires var inside := stack + [ObjFrame(init, m.key)];
             Ready(scalar, RunFrom(scalar, State(inside, ExpectValue), Render(m.value)), inside, m.value)
    ensures Ready(scalar,
                  RunFrom(scalar, State(stack + [ObjFrame(init, key)], mode), Quoted(m.key) + [':'] + Render(m.value)),
                  stack + [ObjFrame(init, m.key)], m.value)
  {
    var st := State(stack + [ObjFrame(init, key)], mode);
    RunFromAppend(scalar, st, Quoted(m.key) + [':'], Render(m.value));
    RunFromAppend(scalar, st, Quoted(m.key), [':']);
    ReadQuoted(scalar, st, m.key, true);
    assert st.stack[..|stack|] == stack;
    RunOne(scalar, State(stack + [ObjFrame(init, m.key)], AfterKey), ':');
  }

  lemma {:induction false} ReadMembers(scalar: string -> bool, st: State, members: seq<Member>)
    requires members != [] && |st.stack| < MAX_DEPTH
    requires forall i :: 0 <= i < |members| ==> Writable(scalar, members[i].value, |st.stack| + 1)
    ensures Ready(scalar, RunFrom(scalar, InsideObject(st), RenderMembers(members)),
                  st.stack + [ObjFrame(members[..|members| - 1], members[|members| - 1].key)],
                  members[|members| - 1].value)
    decreases members, 1
  {
    var init, last := members[..|members| - 1], members[|members| - 1];
    var text := Quoted(last.key) + [':'] + Render(last.value);
    ReadValue(scalar, State(st.stack + [ObjFrame(init, last.key)], ExpectValue), last.value);
    if init == [] {
      assert "" + text == text;
      ReadMember(scalar, st.stack, ExpectKeyOrClose, init, "", last);
    } else {
      ReadMembers(scalar, st, init);
      NextMember(scalar, st, init);
      RunFromAppend(scalar, InsideObject(st), RenderMembers(init) + [','], text);
      ReadMember(scalar, st.stack, ExpectKey, init, "", last);
    }
  }

  lemma {:induction false} NextMember(scalar: string -> bool, st: State, init: seq<Member>)
    requires init != []
    requires Ready(scalar, RunFrom(scalar, InsideObject(st), RenderMembers(init)),
                   st.stack + [ObjFrame(init[..|init| - 1], init[|init| - 1].key)], init[|init| - 1].value)
    ensures RunFrom(scalar, InsideObject(st), RenderMembers(init) + [','])
         == State(st.stack + [ObjFrame(init, "")], ExpectKey)
  {
    RunThen(scalar, InsideObject(st), RenderMembers(init), ',');
    CommaAfterMember(scalar, RunFrom(scalar, InsideObject(st), RenderMembers(init)), st.stack, init);
  }

  lemma {:induction false} CommaAfterMember(scalar: string -> bool, st: State, below: seq<Frame>, members: seq<Member>)
    requires members != []
    requires var last := members[|members| - 1];
             Ready(scalar, st, below + [ObjFrame(members[..|members| - 1], last.key)], last.value)
    ensures Step(scalar, st, ',') == State(below + [ObjFrame(members, "")], ExpectKey)
  {
    var last := members[|members| - 1];
    var stack := below + [ObjFrame(members[..|members| - 1], last.key)];
    NextAfter(scalar, st, stack, last.value, ',');
    assert stack[..|below|] == below;
    assert members[..|members| - 1] + [last] == members;
  }

  /** What is written reads back: the reader is not stricter or looser than it looks. */
  lemma {:induction false} RenderedValueReadsBack(scalar: string -> bool, v: Value)
    requires Writable(scalar, v, 0)
    ensures Parse(scalar, Render(v)) == Some(v)
  {
    ReadValue(scalar, START, v);
  }

  /** Written tool arguments, cut anywhere, keep every completed member. */
  lemma {:induction false} CutRenderedObject(scalar: string -> bool, members: seq<Member>, cut: nat)
    requires Writable(scalar, Obj(members), 0) && cut <= |Render(Obj(members))|
    ensures var s := Render(Obj(members))[..cut];
            Recovers(ParseStreaming(scalar, Some(s)), members, SurveyOf(s).commas)
    ensures ParseStreaming(scalar, Some(Render(Obj(members)))) == Obj(members)
  {
    RenderedValueReadsBack(scalar, Obj(members));
    CutKeepsCompletedMembers(scalar, Render(Obj(members)), members, cut);
    NotBlank(members);
  }

  lemma {:induction false} NotBlank(members: seq<Member>)
    ensures !IsBlank(Render(Obj(members)))
  {
    TrimKeepsPrefix(['{'], Render(Obj(members)));
  }
}
