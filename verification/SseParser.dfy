/** The server-sent-event reader that works on pieces of a byte stream, and the one that works on a
    whole body.

    Text is kept as its bytes.  Decoding of malformed UTF-8, whitespace trimming and reading a
    payload as JSON are parameters. */
module SseParser {
  import opened Wrappers
  import opened Bytes

  type Text = seq<Byte>

  const NEWLINE: Byte := 10
  const CARRIAGE_RETURN: Byte := 13
  const BOM: Text := [0xEF, 0xBB, 0xBF]
  const DATA: Text := [100, 97, 116, 97, 58]
  const EVENT: Text := [101, 118, 101, 110, 116, 58]
  const DONE: Text := [91, 68, 79, 78, 69, 93]

  /** The words and marks the two readers look for, in ASCII, and the byte-order mark U+FEFF in UTF-8. */
  lemma WordsAreSpelled()
    ensures |DATA| == |"data:"| && forall i :: 0 <= i < |DATA| ==> DATA[i] as int == "data:"[i] as int
    ensures |EVENT| == |"event:"| && forall i :: 0 <= i < |EVENT| ==> EVENT[i] as int == "event:"[i] as int
    ensures |DONE| == |"[DONE]"| && forall i :: 0 <= i < |DONE| ==> DONE[i] as int == "[DONE]"[i] as int
    ensures NEWLINE as int == '\n' as int && CARRIAGE_RETURN as int == '\r' as int
    ensures |BOM| == 3 && 0xe0 <= BOM[0] < 0xf0 && 0x80 <= BOM[1] < 0xc0 && 0x80 <= BOM[2] < 0xc0
    ensures (BOM[0] as int - 0xe0) * 0x1000 + (BOM[1] as int - 0x80) * 0x40 + (BOM[2] as int - 0x80) == 0xfeff
  {
  }

  datatype Reading<V> = Reading(
    lossy: Text -> Text, trimStart: Text -> Text, trim: Text -> Text, decode: Text -> Result<V>)

  function Join(lines: seq<Text>): Text {
    if lines == [] then []
    else if |lines| == 1 then lines[0]
    else Join(lines[..|lines| - 1]) + [NEWLINE] + lines[|lines| - 1]
  }

  /** What one event's data adds to the values: nothing for the end marker or unreadable data. */
  function Payload<V>(reading: Reading<V>, data: Text): seq<V> {
    if reading.trim(data) == DONE then []
    else match reading.decode(data)
      case Success(value) => [value]
      case Failure(_) => []
  }

  function StripCr(line: Text): Text {
    if line != [] && line[|line| - 1] == CARRIAGE_RETURN then line[..|line| - 1] else line
  }

  // ---------------------------------------------------------------------
  // The streaming reader, one byte at a time.

  datatype SseState<V> = SseState(
    line: Text, data: seq<Text>, bomChecked: bool, bomMatched: nat, events: seq<V>)

  function Initial<V>(): SseState<V> {
    SseState([], [], false, 0, [])
  }

  function PushEvent<V>(reading: Reading<V>, s: SseState<V>): SseState<V> {
    if s.data == [] then s
    else s.(data := [], events := s.events + Payload(reading, Join(s.data)))
  }

  /** One decoded line: an empty one ends the event, a data line adds to it, others are skipped. */
  function TakeLine<V>(reading: Reading<V>, s: SseState<V>, line: Text): SseState<V> {
    if line == [] then PushEvent(reading, s)
    else if DATA <= line then s.(data := s.data + [reading.trimStart(line[|DATA|..])])
    else s
  }

  function PushLine<V>(reading: Reading<V>, s: SseState<V>): SseState<V> {
    TakeLine(reading, s.(line := []), reading.lossy(StripCr(s.line)))
  }

  function ContentByte<V>(reading: Reading<V>, s: SseState<V>, b: Byte): SseState<V> {
    if b == NEWLINE then PushLine(reading, s) else s.(line := s.line + [b])
  }

  function Step<V>(reading: Reading<V>, s: SseState<V>, b: Byte): SseState<V> {
    if s.bomChecked || s.bomMatched >= 3 then ContentByte(reading, s, b)
    else if b == BOM[s.bomMatched] then s.(bomMatched := s.bomMatched + 1, bomChecked := s.bomMatched + 1 == 3)
    else ContentByte(reading, s.(bomChecked := true, line := s.line + BOM[..s.bomMatched]), b)
  }

  function Steps<V>(reading: Reading<V>, s: SseState<V>, bytes: seq<Byte>): SseState<V>
    decreases |bytes|
  {
    if bytes == [] then s else Steps(reading, Step(reading, s, bytes[0]), bytes[1..])
  }

  function FinishState<V>(reading: Reading<V>, s: SseState<V>): SseState<V> {
    PushEvent(reading, if s.line != [] then PushLine(reading, s) else s)
  }

  class SseJsonParser<V> {
    const reading: Reading<V>
    var lineBuffer: Text
    var dataLines: seq<Text>
    var bomChecked: bool
    var bomMatched: nat

    constructor (reading: Reading<V>)
      ensures State([]) == Initial() && this.reading == reading && Valid()
    {
      this.reading := reading;
      lineBuffer, dataLines, bomChecked, bomMatched := [], [], false, 0;
    }

    predicate Valid()
      reads this
    {
      !bomChecked ==> bomMatched < 3
    }

    function State(events: seq<V>): SseState<V>
      reads this
    {
      SseState(lineBuffer, dataLines, bomChecked, bomMatched, events)
    }

    /** A piece of any length, in one pass: it comes to its bytes one at a time. */
    method PushBytes(bytes: seq<Byte>, events: seq<V>) returns (out: seq<V>)
      requires Valid()
      modifies this
      ensures Valid() && State(out) == Steps(reading, old(State(events)), bytes)
    {
      out := events;
      var rest := StripLeadingBom(bytes, events);
      if !bomChecked {
        return;
      }
      for i := 0 to |rest|
        invariant Valid() && bomChecked
        invariant Steps(reading, State(out), rest[i..]) == Steps(reading, old(State(events)), bytes)
      {
        assert rest[i..][1..] == rest[i + 1..];
        if rest[i] == NEWLINE {
          out := PushOneLine(out);
        } else {
          lineBuffer := lineBuffer + [rest[i]];
        }
      }
    }

    /** Consume one leading byte-order mark, which may be cut anywhere; bytes that began like one but
        were not are put back.  While undecided, nothing is left to read. */
    method StripLeadingBom(bytes: seq<Byte>, ghost events: seq<V>) returns (rest: seq<Byte>)
      requires Valid()
      modifies this
      ensures Valid() && dataLines == old(dataLines)
      ensures Steps(reading, State(events), rest) == Steps(reading, old(State(events)), bytes)
      ensures !bomChecked ==> rest == []
    {
      if bomChecked {
        return bytes;
      }
      var offset := 0;
      while offset < |bytes|
        invariant offset <= |bytes| && !bomChecked && bomMatched < 3
        invariant dataLines == old(dataLines)
        invariant Steps(reading, State(events), bytes[offset..]) == Steps(reading, old(State(events)), bytes)
      {
        assert bytes[offset..][1..] == bytes[offset + 1..];
        if bytes[offset] == BOM[bomMatched] {
          bomMatched := bomMatched + 1;
          offset := offset + 1;
          if bomMatched == |BOM| {
            bomChecked := true;
            return bytes[offset..];
          }
        } else {
          ghost var replayed := State(events).(bomChecked := true, line := lineBuffer + BOM[..bomMatched]);
          assert Step(reading, State(events), bytes[offset]) == Step(reading, replayed, bytes[offset]);
          bomChecked := true;
          lineBuffer := lineBuffer + BOM[..bomMatched];
          return bytes[offset..];
        }
      }
      return [];
    }

    method PushOneLine(events: seq<V>) returns (out: seq<V>)
      modifies this`lineBuffer, this`dataLines
      ensures State(out) == PushLine(reading, old(State(events)))
    {
      out := events;
      if lineBuffer != [] && lineBuffer[|lineBuffer| - 1] == CARRIAGE_RETURN {
        lineBuffer := lineBuffer[..|lineBuffer| - 1];
      }
      var line := reading.lossy(lineBuffer);
      lineBuffer := [];
      if line == [] {
        out := PushSseEvent(out);
        return;
      }
      if DATA <= line {
        dataLines := dataLines + [reading.trimStart(line[|DATA|..])];
      }
    }

    method PushSseEvent(events: seq<V>) returns (out: seq<V>)
      modifies this`dataLines
      ensures State(out) == PushEvent(reading, old(State(events)))
    {
      out := events;
      if dataLines == [] {
        return;
      }
      var data := Join(dataLines);
      dataLines := [];
      if reading.trim(data) == DONE {
        assert events + [] == events;
        return;
      }
      var value := reading.decode(data);
      if value.Success? {
        out := out + [value.value];
      }
    }

    method Finish(events: seq<V>) returns (out: seq<V>)
      modifies this
      ensures State(out) == FinishState(reading, old(State(events)))
    {
      out := events;
      if lineBuffer != [] {
        out := PushOneLine(out);
      }
      out := PushSseEvent(out);
    }
  }

  // ---------------------------------------------------------------------
  // Cutting the bytes into pieces makes no difference.

  lemma {:induction false} StepsAppend<V>(reading: Reading<V>, s: SseState<V>, a: seq<Byte>, b: seq<Byte>)
    ensures Steps(reading, s, a + b) == Steps(reading, Steps(reading, s, a), b)
    decreases |a|
  {
    if a == [] {
      assert a + b == b;
    } else {
      assert (a + b)[1..] == a[1..] + b;
      StepsAppend(reading, Step(reading, s, a[0]), a[1..], b);
    }
  }

  function PushAll<V>(reading: Reading<V>, chunks: seq<seq<Byte>>): SseState<V> {
    if chunks == [] then Initial()
    else Steps(reading, PushAll(reading, chunks[..|chunks| - 1]), chunks[|chunks| - 1])
  }

  /** The values read and the reader's whole state depend on the bytes only, wherever a piece ends:
      inside a byte-order mark, inside a line, or between CR and LF. */
  lemma {:induction false} ChunkingDoesNotMatter<V>(reading: Reading<V>, chunks: seq<seq<Byte>>)
    ensures PushAll(reading, chunks) == Steps(reading, Initial(), Flatten(chunks))
  {
    if chunks != [] {
      var init := chunks[..|chunks| - 1];
      ChunkingDoesNotMatter(reading, init);
      StepsAppend(reading, Initial(), Flatten(init), chunks[|chunks| - 1]);
    }
  }

  // ---------------------------------------------------------------------
  // The whole-body reader.

  function FirstNewline(body: Text): (k: nat)
    ensures k <= |body| && NEWLINE !in body[..k]
    ensures k < |body| ==> body[k] == NEWLINE
  {
    if body == [] || body[0] == NEWLINE then 0 else 1 + FirstNewline(body[1..])
  }

  /** The lines of a body: each loses its line feed and, only then, one carriage return. */
  function Lines(body: Text): seq<Text>
    decreases |body|
  {
    if body == [] then []
    else
      var k := FirstNewline(body);
      if k == |body| then [body] else [StripCr(body[..k])] + Lines(body[k + 1..])
  }

  datatype SseEvent = SseEvent(event: Option<Text>, data: Text, raw: seq<Text>)

  datatype BodyState = BodyState(events: seq<SseEvent>, event: Option<Text>, data: seq<Text>, raw: seq<Text>)

  function Flush(s: BodyState): BodyState {
    if s.event.None? && s.data == [] && s.raw == [] then s
    else BodyState(s.events + [SseEvent(s.event, Join(s.data), s.raw)], None, [], [])
  }

  function TakeBodyLine(trimStart: Text -> Text, s: BodyState, line: Text): BodyState {
    if line == [] then Flush(s)
    else
      var s' := s.(raw := s.raw + [line]);
      if EVENT <= line then s'.(event := Some(trimStart(line[|EVENT|..])))
      else if DATA <= line then s'.(data := s.data + [trimStart(line[|DATA|..])])
      else s'
  }

  function TakeBodyLines(trimStart: Text -> Text, s: BodyState, lines: seq<Text>): BodyState
    decreases |lines|
  {
    if lines == [] then s else TakeBodyLines(trimStart, TakeBodyLine(trimStart, s, lines[0]), lines[1..])
  }

  function ParseBody(trimStart: Text -> Text, body: Text): seq<SseEvent> {
    Flush(TakeBodyLines(trimStart, BodyState([], None, [], []), Lines(body))).events
  }

  method ParseSseMessages(trimStart: Text -> Text, body: Text) returns (events: seq<SseEvent>)
    ensures events == ParseBody(trimStart, body)
  {
    events := [];
    var event: Option<Text> := None;
    var data: seq<Text> := [];
    var raw: seq<Text> := [];
    var lines := Lines(body);
    for i := 0 to |lines|
      invariant TakeBodyLines(trimStart, BodyState(events, event, data, raw), lines[i..])
             == TakeBodyLines(trimStart, BodyState([], None, [], []), lines)
    {
      var line := lines[i];
      assert lines[i..][1..] == lines[i + 1..];
      if line == [] {
        if event.Some? || data != [] || raw != [] {
          events := events + [SseEvent(event, Join(data), raw)];
          event, data, raw := None, [], [];
        }
        continue;
      }
      raw := raw + [line];
      if EVENT <= line {
        event := Some(trimStart(line[|EVENT|..]));
      } else if DATA <= line {
        data := data + [trimStart(line[|DATA|..])];
      }
    }
    if event.Some? || data != [] || raw != [] {
      events := events + [SseEvent(event, Join(data), raw)];
    }
  }

  // ---------------------------------------------------------------------
  // The two readers agree.

  predicate HasData(raw: seq<Text>) {
    exists i :: 0 <= i < |raw| && DATA <= raw[i]
  }

  /** The values of those whole-body events that have a data line. */
  function Payloads<V>(reading: Reading<V>, events: seq<SseEvent>): seq<V> {
    if events == [] then []
    else
      var e := events[|events| - 1];
      Payloads(reading, events[..|events| - 1]) + if HasData(e.raw) then Payload(reading, e.data) else []
  }

  ghost predicate Agree<V>(reading: Reading<V>, s: SseState<V>, b: BodyState) {
    && s.line == [] && s.data == b.data
    && s.events == Payloads(reading, b.events)
    && (b.data != [] <==> HasData(b.raw))
  }

  lemma PayloadsSnoc<V>(reading: Reading<V>, events: seq<SseEvent>, e: SseEvent)
    ensures Payloads(reading, events + [e])
         == Payloads(reading, events) + if HasData(e.raw) then Payload(reading, e.data) else []
  {
    assert (events + [e])[..|events|] == events;
  }

  lemma FlushAgrees<V>(reading: Reading<V>, s: SseState<V>, b: BodyState)
    requires Agree(reading, s, b)
    ensures Agree(reading, PushEvent(reading, s), Flush(b))
  {
    PayloadsSnoc(reading, b.events, SseEvent(b.event, Join(b.data), b.raw));
  }

  lemma HasDataSnoc(raw: seq<Text>, line: Text)
    ensures HasData(raw + [line]) <==> HasData(raw) || DATA <= line
  {
    var more := raw + [line];
    if HasData(raw) {
      var i :| 0 <= i < |raw| && DATA <= raw[i];
      assert DATA <= more[i];
    }
    if DATA <= line {
      assert DATA <= more[|raw|];
    }
  }

  lemma LineAgrees<V>(reading: Reading<V>, s: SseState<V>, b: BodyState, line: Text)
    requires Agree(reading, s, b)
    ensures Agree(reading, TakeLine(reading, s, line), TakeBodyLine(reading.trimStart, b, line))
  {
    if line == [] {
      FlushAgrees(reading, s, b);
    } else {
      HasDataSnoc(b.raw, line);
      if EVENT <= line {
        assert line[0] == EVENT[0];
        assert !(DATA <= line);
      }
    }
  }

  function TakeLines<V>(reading: Reading<V>, s: SseState<V>, lines: seq<Text>): SseState<V>
    decreases |lines|
  {
    if lines == [] then s else TakeLines(reading, TakeLine(reading, s, lines[0]), lines[1..])
  }

  lemma {:induction false} LinesAgree<V>(reading: Reading<V>, s: SseState<V>, b: BodyState, lines: seq<Text>)
    requires Agree(reading, s, b)
    ensures Agree(reading, TakeLines(reading, s, lines), TakeBodyLines(reading.trimStart, b, lines))
    decreases |lines|
  {
    if lines != [] {
      LineAgrees(reading, s, b, lines[0]);
      LinesAgree(reading, TakeLine(reading, s, lines[0]), TakeBodyLine(reading.trimStart, b, lines[0]), lines[1..]);
    }
  }

  /** Decoding leaves these lines as they are, as it does with well-formed UTF-8. */
  predicate WellFormed<V>(reading: Reading<V>, lines: seq<Text>) {
    forall l :: l in lines ==> reading.lossy(l) == l
  }

  lemma {:induction false} StepsWithinLine<V>(reading: Reading<V>, s: SseState<V>, part: Text)
    requires s.bomChecked && NEWLINE !in part
    ensures Steps(reading, s, part) == s.(line := s.line + part)
    decreases |part|
  {
    if part == [] {
      assert s.line + [] == s.line;
    } else {
      assert NEWLINE !in part[1..];
      StepsWithinLine(reading, Step(reading, s, part[0]), part[1..]);
      assert (s.line + [part[0]]) + part[1..] == s.line + part;
    }
  }

  predicate EndsInCr(body: Text) {
    body != [] && body[|body| - 1] == CARRIAGE_RETURN
  }

  /** The text without the one carriage return it may end in; it loses what a whole line loses. */
  function Chopped(body: Text): Text {
    StripCr(body)
  }

  /** Reading ignores one carriage return at the end, as reading JSON after trimming does. */
  ghost predicate IgnoresFinalCr<V>(reading: Reading<V>) {
    forall t: Text ::
      && (reading.trim(t + [CARRIAGE_RETURN]) == DONE <==> reading.trim(t) == DONE)
      && reading.decode(t + [CARRIAGE_RETURN]) == reading.decode(t)
      && (reading.trimStart(t + [CARRIAGE_RETURN]) == reading.trimStart(t)
          || reading.trimStart(t + [CARRIAGE_RETURN]) == reading.trimStart(t) + [CARRIAGE_RETURN])
  }

  lemma PushEventTwice<V>(reading: Reading<V>, s: SseState<V>)
    ensures PushEvent(reading, PushEvent(reading, s)) == PushEvent(reading, s)
  {
  }

  lemma LineFinishes<V>(reading: Reading<V>, s: SseState<V>, body: Text)
    requires s.bomChecked && s.line == [] && body != [] && NEWLINE !in body
    requires reading.lossy(Chopped(body)) == Chopped(body)
    ensures FinishState(reading, Steps(reading, s, body)) == PushEvent(reading, TakeLine(reading, s, Chopped(body)))
  {
    StepsWithinLine(reading, s, body);
    assert [] + body == body;
  }

  lemma LastLine<V>(reading: Reading<V>, s: SseState<V>, body: Text)
    requires s.bomChecked && s.line == [] && body != [] && NEWLINE !in body
    requires reading.lossy(Chopped(body)) == Chopped(body)
    ensures FinishState(reading, Steps(reading, s, body))
         == PushEvent(reading, TakeLines(reading, s, Lines(Chopped(body))))
  {
    LineFinishes(reading, s, body);
    if Chopped(body) == [] {
      PushEventTwice(reading, s);
    } else {
      OneLine(Chopped(body));
      assert [Chopped(body)][1..] == [];
    }
  }

  lemma OneLine(body: Text)
    requires body != [] && NEWLINE !in body
    ensures Lines(body) == [body]
  {
  }

  lemma FirstLine<V>(reading: Reading<V>, s: SseState<V>, body: Text, k: nat)
    requires s.bomChecked && s.line == [] && k == FirstNewline(body) < |body|
    requires reading.lossy(StripCr(body[..k])) == StripCr(body[..k])
    ensures Steps(reading, s, body) == Steps(reading, TakeLine(reading, s, StripCr(body[..k])), body[k + 1..])
  {
    var start := body[..k];
    assert body == (start + [NEWLINE]) + body[k + 1..];
    StepsAppend(reading, s, start + [NEWLINE], body[k + 1..]);
    WholeLine(reading, s, start);
  }

  lemma WholeLine<V>(reading: Reading<V>, s: SseState<V>, start: Text)
    requires s.bomChecked && s.line == [] && NEWLINE !in start && reading.lossy(StripCr(start)) == StripCr(start)
    ensures Steps(reading, s, start + [NEWLINE]) == TakeLine(reading, s, StripCr(start))
  {
    StepsWithinLine(reading, s, start);
    assert [] + start == start;
    StepsAppend(reading, s, start, [NEWLINE]);
    NewlineTakesLine(reading, s.(line := start), StripCr(start));
  }

  lemma FirstNewlineIs(text: Text, k: nat)
    requires k < |text| && text[k] == NEWLINE && NEWLINE !in text[..k]
    ensures FirstNewline(text) == k
  {
    var first := FirstNewline(text);
    forall j | 0 <= j < k
      ensures text[j] != NEWLINE
    {
      assert text[..k][j] == text[j];
    }
    forall j | 0 <= j < first
      ensures text[j] != NEWLINE
    {
      assert text[..first][j] == text[j];
    }
  }

  lemma LinesUnfold(text: Text, k: nat)
    requires k < |text| && text[k] == NEWLINE && NEWLINE !in text[..k]
    ensures Lines(text) == [StripCr(text[..k])] + Lines(text[k + 1..])
  {
    FirstNewlineIs(text, k);
  }

  lemma ChoppedRest(body: Text, k: nat)
    requires k < |body| && body[k] == NEWLINE
    ensures EndsInCr(body) <==> EndsInCr(body[k + 1..])
    ensures k < |Chopped(body)| && Chopped(body)[k] == NEWLINE
    ensures Chopped(body)[..k] == body[..k] && Chopped(body)[k + 1..] == Chopped(body[k + 1..])
  {
    var rest := body[k + 1..];
    assert rest != [] ==> rest[|rest| - 1] == body[|body| - 1];
  }

  lemma ChoppedUnfolds(body: Text, k: nat)
    requires k == FirstNewline(body) < |body|
    ensures EndsInCr(body) <==> EndsInCr(body[k + 1..])
    ensures Lines(Chopped(body)) == [StripCr(body[..k])] + Lines(Chopped(body[k + 1..]))
  {
    ChoppedRest(body, k);
    LinesUnfold(Chopped(body), k);
  }

  lemma {:induction false} BytesAreLines<V>(reading: Reading<V>, s: SseState<V>, body: Text)
    requires s.bomChecked && s.line == [] && WellFormed(reading, Lines(Chopped(body)))
    requires EndsInCr(body) ==> reading.lossy([]) == []
    ensures FinishState(reading, Steps(reading, s, body))
         == PushEvent(reading, TakeLines(reading, s, Lines(Chopped(body))))
    decreases |body|
  {
    if body != [] {
      var k := FirstNewline(body);
      if k == |body| {
        assert body[..k] == body;
        if Chopped(body) != [] {
          OneLine(Chopped(body));
          assert Chopped(body) in Lines(Chopped(body));
        }
        LastLine(reading, s, body);
      } else {
        var line, rest := StripCr(body[..k]), body[k + 1..];
        var lines := Lines(Chopped(body));
        ChoppedUnfolds(body, k);
        assert lines[0] == line && lines[1..] == Lines(Chopped(rest));
        FirstLine(reading, s, body, k);
        BytesAreLines(reading, TakeLine(reading, s, line), rest);
      }
    }
  }

  lemma NewlineTakesLine<V>(reading: Reading<V>, s: SseState<V>, line: Text)
    requires s.bomChecked && line == StripCr(s.line) && reading.lossy(line) == line
    ensures Steps(reading, s, [NEWLINE]) == TakeLine(reading, s.(line := []), line)
  {
    assert [NEWLINE][1..] == [];
  }

  /** The body neither begins with a byte-order mark nor is the beginning of one. */
  predicate BomFree(body: Text) {
    !(BOM <= body) && (body != [] ==> !(body <= BOM))
  }

  /** Without a byte-order mark, looking for one changes nothing but the count of matched bytes. */
  lemma NoBom<V>(reading: Reading<V>, body: Text) returns (matched: nat)
    requires BomFree(body) && body != []
    ensures Steps(reading, Initial<V>(), body)
         == Steps(reading, Initial<V>().(bomChecked := true, bomMatched := matched), body)
  {
    matched := if body[0] != BOM[0] then 0 else if body[1] != BOM[1] then 1 else 2;
    assert body == body[..matched] + body[matched..] && body[..matched] == BOM[..matched];
    NotTheBom(reading, matched, body[matched..]);
  }

  lemma NotTheBom<V>(reading: Reading<V>, matched: nat, rest: Text)
    requires matched < 3 && rest != [] && rest[0] != BOM[matched]
    ensures Steps(reading, Initial<V>(), BOM[..matched] + rest)
         == Steps(reading, Initial<V>().(bomChecked := true, bomMatched := matched), BOM[..matched] + rest)
  {
    var head := BOM[..matched];
    var checked := Initial<V>().(bomChecked := true, bomMatched := matched);
    StepsAppend(reading, Initial<V>(), head, rest);
    StepsAppend(reading, checked, head, rest);
    StepsWithinLine(reading, checked, head);
    assert [] + head == head;
    BomPrefix<V>(reading, matched);
  }

  lemma BomPrefix<V>(reading: Reading<V>, matched: nat)
    requires matched < 3
    ensures Steps(reading, Initial<V>(), BOM[..matched]) == Initial<V>().(bomMatched := matched)
    decreases matched
  {
    var s := Initial<V>();
    if matched == 1 {
      assert BOM[..1][1..] == [];
    } else if matched == 2 {
      StepsAppend(reading, s, BOM[..1], [BOM[1]]);
      assert BOM[..2] == BOM[..1] + [BOM[1]];
      BomPrefix<V>(reading, 1);
      assert [BOM[1]][1..] == [];
    }
  }

  /** What the streaming reader reads of a text: not a byte-order mark it begins with, or breaks off
      in, and not a carriage return it ends in. */
  function Content(body: Text): Text {
    Chopped(if BOM <= body then body[3..] else if body <= BOM then [] else body)
  }

  /** The state once the search for a byte-order mark is over, and the bytes that are left. */
  lemma BomIsSkipped<V>(reading: Reading<V>, body: Text) returns (matched: nat, rest: Text)
    requires BOM <= body || (BomFree(body) && body != [])
    ensures Steps(reading, Initial<V>(), body)
         == Steps(reading, Initial<V>().(bomChecked := true, bomMatched := matched), rest)
    ensures Content(body) == Chopped(rest) && (EndsInCr(rest) ==> EndsInCr(body))
  {
    if BOM <= body {
      matched, rest := 3, body[3..];
      assert body == BOM + rest;
      WholeBom(reading);
      StepsAppend(reading, Initial<V>(), BOM, rest);
      assert rest != [] ==> rest[|rest| - 1] == body[|body| - 1];
    } else {
      matched := NoBom(reading, body);
      rest := body;
    }
  }

  lemma WholeBom<V>(reading: Reading<V>)
    ensures Steps(reading, Initial<V>(), BOM) == Initial<V>().(bomChecked := true, bomMatched := 3)
  {
    assert BOM == BOM[..2] + [BOM[2]];
    StepsAppend(reading, Initial<V>(), BOM[..2], [BOM[2]]);
    BomPrefix<V>(reading, 2);
    assert [BOM[2]][1..] == [];
  }

  lemma BrokenBomHoldsNothing<V>(reading: Reading<V>, body: Text)
    requires body <= BOM && body != BOM
    ensures FinishState(reading, Steps(reading, Initial<V>(), body)).events == []
  {
    assert body == BOM[..|body|];
    BomPrefix<V>(reading, |body|);
  }

  lemma {:induction false} LinesGiveEvents<V>(reading: Reading<V>, matched: nat, text: Text)
    ensures var s := Initial<V>().(bomChecked := true, bomMatched := matched);
            PushEvent(reading, TakeLines(reading, s, Lines(text))).events
            == Payloads(reading, ParseBody(reading.trimStart, text))
  {
    var s := Initial<V>().(bomChecked := true, bomMatched := matched);
    var b := BodyState([], None, [], []);
    LinesAgree(reading, s, b, Lines(text));
    FlushAgrees(reading, TakeLines(reading, s, Lines(text)), TakeBodyLines(reading.trimStart, b, Lines(text)));
  }

  /** For every text, however it is cut into pieces, the streaming reader's values are those of
      exactly the events that have a data line, in order, that the whole-body reader finds in the
      text without its byte-order mark and without a carriage return at its end. */
  lemma StreamingReadsWhatTheWholeBodyHolds<V>(reading: Reading<V>, chunks: seq<seq<Byte>>)
    requires WellFormed(reading, Lines(Content(Flatten(chunks))))
    requires EndsInCr(Flatten(chunks)) ==> reading.lossy([]) == []
    ensures FinishState(reading, PushAll(reading, chunks)).events
         == Payloads(reading, ParseBody(reading.trimStart, Content(Flatten(chunks))))
  {
    var body := Flatten(chunks);
    ChunkingDoesNotMatter(reading, chunks);
    if body <= BOM && body != BOM {
      BrokenBomHoldsNothing(reading, body);
      NothingInNothing(reading);
    } else {
      var matched, rest := BomIsSkipped(reading, body);
      BytesAreLines(reading, Initial<V>().(bomChecked := true, bomMatched := matched), rest);
      LinesGiveEvents(reading, matched, Chopped(rest));
    }
  }

  lemma NothingInNothing<V>(reading: Reading<V>)
    ensures Payloads(reading, ParseBody(reading.trimStart, [])) == []
  {
  }

  /** Without a byte-order mark the two readers agree on a text exactly when the whole-body reader
      does not tell it from the text without a carriage return at its end; and a reading that
      ignores such a carriage return never does, so that they agree on every text. */
  lemma WhenTheReadersAgree<V>(reading: Reading<V>, chunks: seq<seq<Byte>>)
    requires var body := Flatten(chunks);
             BomFree(body) && WellFormed(reading, Lines(Chopped(body)))
             && (EndsInCr(body) ==> reading.lossy([]) == [])
    ensures var body := Flatten(chunks);
            var whole := Payloads(reading, ParseBody(reading.trimStart, body));
            && (FinishState(reading, PushAll(reading, chunks)).events == whole
                <==> Payloads(reading, ParseBody(reading.trimStart, Chopped(body))) == whole)
            && (IgnoresFinalCr(reading) ==> FinishState(reading, PushAll(reading, chunks)).events == whole)
  {
    assert Content(Flatten(chunks)) == Chopped(Flatten(chunks));
    StreamingReadsWhatTheWholeBodyHolds(reading, chunks);
    if IgnoresFinalCr(reading) {
      ChoppingIsIgnored(reading, Flatten(chunks));
    }
  }

  lemma ChoppingIsIgnored<V>(reading: Reading<V>, body: Text)
    requires IgnoresFinalCr(reading)
    ensures Payloads(reading, ParseBody(reading.trimStart, body))
         == Payloads(reading, ParseBody(reading.trimStart, Chopped(body)))
  {
    if EndsInCr(body) {
      FinalCrIsIgnored(reading, Chopped(body));
      assert body == Chopped(body) + [CARRIAGE_RETURN];
    }
  }

  /** The last line of a text that does not end in a line feed. */
  predicate OpenEnded(text: Text) {
    text != [] && text[|text| - 1] != NEWLINE
  }

  predicate OneCrMore(text: Text, lines: seq<Text>, more: seq<Text>) {
    if OpenEnded(text) then
      && lines != [] && lines[|lines| - 1] != []
      && more == lines[..|lines| - 1] + [lines[|lines| - 1] + [CARRIAGE_RETURN]]
    else more == lines + [[CARRIAGE_RETURN]]
  }

  lemma {:induction false} LinesWithCr(text: Text)
    ensures OneCrMore(text, Lines(text), Lines(text + [CARRIAGE_RETURN]))
    decreases |text|
  {
    var k := FirstNewline(text);
    if k == |text| {
      assert text[..k] == text;
      OneLine(text + [CARRIAGE_RETURN]);
      if text == [] {
        assert text + [CARRIAGE_RETURN] == [CARRIAGE_RETURN];
      } else {
        OneLine(text);
        assert text[|text| - 1] in text;
      }
    } else {
      var rest := text[k + 1..];
      LinesWithCr(rest);
      FirstLineWithCr(text, k);
      OneCrMoreBefore(text, StripCr(text[..k]), rest, Lines(rest), Lines(rest + [CARRIAGE_RETURN]));
    }
  }

  lemma FirstLineWithCr(text: Text, k: nat)
    requires k == FirstNewline(text) < |text|
    ensures Lines(text) == [StripCr(text[..k])] + Lines(text[k + 1..])
    ensures Lines(text + [CARRIAGE_RETURN]) == [StripCr(text[..k])] + Lines(text[k + 1..] + [CARRIAGE_RETURN])
    ensures OpenEnded(text) <==> OpenEnded(text[k + 1..])
  {
    CrAtTheEnd(text, k);
    LinesUnfold(text, k);
    LinesUnfold(text + [CARRIAGE_RETURN], k);
  }

  lemma CrAtTheEnd(text: Text, k: nat)
    requires k < |text| && text[k] == NEWLINE
    ensures var more := text + [CARRIAGE_RETURN];
            more[k] == NEWLINE && more[..k] == text[..k] && more[k + 1..] == text[k + 1..] + [CARRIAGE_RETURN]
    ensures OpenEnded(text) <==> OpenEnded(text[k + 1..])
  {
    var rest := text[k + 1..];
    assert rest != [] ==> rest[|rest| - 1] == text[|text| - 1];
  }

  lemma OneCrMoreBefore(text: Text, line: Text, rest: Text, lines: seq<Text>, more: seq<Text>)
    requires OneCrMore(rest, lines, more) && (OpenEnded(text) <==> OpenEnded(rest))
    ensures OneCrMore(text, [line] + lines, [line] + more)
  {
    if OpenEnded(rest) {
      LastOfLonger(line, lines);
    }
  }

  lemma LastOfLonger(line: Text, lines: seq<Text>)
    requires lines != []
    ensures var longer := [line] + lines;
            longer[..|longer| - 1] == [line] + lines[..|lines| - 1] && longer[|longer| - 1] == lines[|lines| - 1]
  {
  }

  lemma {:induction false} TakeBodyLinesSnoc(trimStart: Text -> Text, s: BodyState, lines: seq<Text>, last: Text)
    ensures TakeBodyLines(trimStart, s, lines + [last])
         == TakeBodyLine(trimStart, TakeBodyLines(trimStart, s, lines), last)
    decreases |lines|
  {
    if lines == [] {
      assert [] + [last] == [last] && [last][1..] == [];
    } else {
      assert (lines + [last])[1..] == lines[1..] + [last];
      TakeBodyLinesSnoc(trimStart, TakeBodyLine(trimStart, s, lines[0]), lines[1..], last);
    }
  }

  lemma PayloadIgnoresCr<V>(reading: Reading<V>, data: Text)
    requires IgnoresFinalCr(reading)
    ensures Payload(reading, data + [CARRIAGE_RETURN]) == Payload(reading, data)
  {
  }

  lemma FlushPayloads<V>(reading: Reading<V>, b: BodyState)
    ensures Payloads(reading, Flush(b).events)
         == Payloads(reading, b.events) + if HasData(b.raw) then Payload(reading, Join(b.data)) else []
  {
    PayloadsSnoc(reading, b.events, SseEvent(b.event, Join(b.data), b.raw));
    assert Payloads(reading, b.events) + [] == Payloads(reading, b.events);
  }

  /** A bare carriage return as the last line adds an event without data, or nothing to one with. */
  lemma BareLineAddsNothing<V>(reading: Reading<V>, b: BodyState)
    ensures Payloads(reading, Flush(TakeBodyLine(reading.trimStart, b, [CARRIAGE_RETURN])).events)
         == Payloads(reading, Flush(b).events)
  {
    var after := TakeBodyLine(reading.trimStart, b, [CARRIAGE_RETURN]);
    assert after == b.(raw := b.raw + [[CARRIAGE_RETURN]]);
    HasDataSnoc(b.raw, [CARRIAGE_RETURN]);
    FlushPayloads(reading, b);
    FlushPayloads(reading, after);
  }

  lemma JoinSnoc(lines: seq<Text>, last: Text)
    ensures Join(lines + [last + [CARRIAGE_RETURN]]) == Join(lines + [last]) + [CARRIAGE_RETURN]
  {
    assert (lines + [last])[..|lines|] == lines;
    assert (lines + [last + [CARRIAGE_RETURN]])[..|lines|] == lines;
  }

  lemma SameStart(line: Text, word: Text)
    requires CARRIAGE_RETURN !in word
    ensures word <= line + [CARRIAGE_RETURN] <==> word <= line
    ensures word <= line ==> (line + [CARRIAGE_RETURN])[|word|..] == line[|word|..] + [CARRIAGE_RETURN]
  {
    assert word != line + [CARRIAGE_RETURN] by {
      assert (line + [CARRIAGE_RETURN])[|line|] in line + [CARRIAGE_RETURN];
    }
    assert word <= line + [CARRIAGE_RETURN] && |word| <= |line| ==> word <= line by {
      assert (line + [CARRIAGE_RETURN])[..|line|] == line;
    }
  }

  lemma LongerLastLine<V>(reading: Reading<V>, b: BodyState, line: Text)
    requires IgnoresFinalCr(reading) && line != []
    ensures Payloads(reading, Flush(TakeBodyLine(reading.trimStart, b, line + [CARRIAGE_RETURN])).events)
         == Payloads(reading, Flush(TakeBodyLine(reading.trimStart, b, line)).events)
  {
    var longer := line + [CARRIAGE_RETURN];
    var one, other := TakeBodyLine(reading.trimStart, b, line), TakeBodyLine(reading.trimStart, b, longer);
    SameStart(line, DATA);
    SameStart(line, EVENT);
    HasDataSnoc(b.raw, line);
    HasDataSnoc(b.raw, longer);
    FlushPayloads(reading, one);
    FlushPayloads(reading, other);
    SamePayload(reading, b, line);
  }

  lemma SamePayload<V>(reading: Reading<V>, b: BodyState, line: Text)
    requires IgnoresFinalCr(reading) && line != []
    ensures var longer := line + [CARRIAGE_RETURN];
            Payload(reading, Join(TakeBodyLine(reading.trimStart, b, longer).data))
            == Payload(reading, Join(TakeBodyLine(reading.trimStart, b, line).data))
  {
    SameStart(line, DATA);
    SameStart(line, EVENT);
    if DATA <= line && !(EVENT <= line) {
      var data := reading.trimStart(line[|DATA|..]);
      JoinSnoc(b.data, data);
      PayloadIgnoresCr(reading, Join(b.data + [data]));
    }
  }

  /** With such a reading, the whole-body reader finds the same values in a text with and without a
      carriage return at its end. */
  lemma FinalCrIsIgnored<V>(reading: Reading<V>, text: Text)
    requires IgnoresFinalCr(reading)
    ensures Payloads(reading, ParseBody(reading.trimStart, text + [CARRIAGE_RETURN]))
         == Payloads(reading, ParseBody(reading.trimStart, text))
  {
    var b := BodyState([], None, [], []);
    var lines := Lines(text);
    LinesWithCr(text);
    if OpenEnded(text) {
      var init, last := lines[..|lines| - 1], lines[|lines| - 1];
      assert lines == init + [last];
      TakeBodyLinesSnoc(reading.trimStart, b, init, last);
      TakeBodyLinesSnoc(reading.trimStart, b, init, last + [CARRIAGE_RETURN]);
      LongerLastLine(reading, TakeBodyLines(reading.trimStart, b, init), last);
    } else {
      TakeBodyLinesSnoc(reading.trimStart, b, lines, [CARRIAGE_RETURN]);
      BareLineAddsNothing(reading, TakeBodyLines(reading.trimStart, b, lines));
    }
  }

  function Plain(): Reading<Text> {
    Reading(t => t, t => t, t => t, t => Success(t))
  }

  const BARE: Text := DATA + [120, CARRIAGE_RETURN]

  /** A reading that keeps every text as it is does tell them apart: from a text that ends in a bare
      carriage return the streaming reader's payload is without it, the whole-body reader's with it. */
  lemma BareCarriageReturnIsReadDifferently()
    ensures FinishState(Plain(), Steps(Plain(), Initial(), BARE)).events == [[120]]
    ensures Payloads(Plain(), ParseBody(Plain().trimStart, BARE)) == [[120, CARRIAGE_RETURN]]
  {
    BareStreamed();
    BareWhole();
  }

  lemma BareStreamed()
    ensures FinishState(Plain(), Steps(Plain(), Initial(), BARE)).events == [[120]]
  {
    assert BARE[0] != BOM[0] && BomFree(BARE);
    var matched := NoBom(Plain(), BARE);
    var s := Initial<Text>().(bomChecked := true, bomMatched := matched);
    StepsWithinLine(Plain(), s, BARE);
    assert [] + BARE == BARE;
    BareLine(s.(line := BARE));
  }

  lemma BareLine(s: SseState<Text>)
    requires s.line == BARE && s.data == [] && s.events == []
    ensures FinishState(Plain(), s).events == [[120]]
  {
    assert StripCr(BARE) == DATA + [120] && (DATA + [120])[|DATA|..] == [120];
    assert [120][0] != DONE[0];
  }

  lemma BareWhole()
    ensures Payloads(Plain(), ParseBody(Plain().trimStart, BARE)) == [[120, CARRIAGE_RETURN]]
  {
    var data := [120, CARRIAGE_RETURN];
    var e := SseEvent(None, data, [BARE]);
    OneLine(BARE);
    assert BARE[|DATA|..] == data && BARE[0] != EVENT[0];
    var b := TakeBodyLine(Plain().trimStart, BodyState([], None, [], []), BARE);
    assert b == BodyState([], None, [data], [BARE]);
    assert [BARE][1..] == [] && [BARE][0] == BARE;
    assert TakeBodyLines(Plain().trimStart, BodyState([], None, [], []), [BARE]) == b;
    assert Flush(b).events == [] + [e];
    assert HasData([BARE]);
    assert data[0] != DONE[0];
    PayloadsSnoc(Plain(), [], e);
  }
}
