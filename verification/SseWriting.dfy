/** Server-sent events written out and read back. */
module SseWriting {
  import opened Wrappers
  import opened Bytes
  import opened SseParser

  /** An event to send: its name, and a text that may have several lines. */
  datatype Sent = Sent(name: Text, data: Text)

  const SPACE: Byte := 32

  /** A text at its line breaks. */
  function SplitLines(t: Text): (lines: seq<Text>)
    ensures lines != []
    decreases |t|
  {
    var k := FirstNewline(t);
    if k == |t| then [t] else [t[..k]] + SplitLines(t[k + 1..])
  }

  /** The lines of an event as section 9.2.6 of the HTML Living Standard has them sent: a field name, a
      colon, a space and the value. */
  function EventLines(e: Sent): seq<Text> {
    [EVENT + [SPACE] + e.name] + DataLines(SplitLines(e.data))
  }

  function DataLines(lines: seq<Text>): (out: seq<Text>)
    ensures |out| == |lines|
  {
    seq(|lines|, i requires 0 <= i < |lines| => DATA + [SPACE] + lines[i])
  }

  function WriteLines(lines: seq<Text>): Text {
    if lines == [] then [] else lines[0] + [NEWLINE] + WriteLines(lines[1..])
  }

  /** Every event ends with an empty line. */
  function AllLines(events: seq<Sent>): seq<Text> {
    if events == [] then [] else EventLines(events[0]) + [[]] + AllLines(events[1..])
  }

  function WriteEvents(events: seq<Sent>): Text {
    WriteLines(AllLines(events))
  }

  function ReadBack(events: seq<Sent>): (out: seq<SseEvent>)
    ensures |out| == |events|
  {
    seq(|events|, i requires 0 <= i < |events| =>
      SseEvent(Some(events[i].name), events[i].data, EventLines(events[i])))
  }

  // ---------------------------------------------------------------------
  // Lines.

  lemma {:induction false} JoinCons(line: Text, lines: seq<Text>)
    requires lines != []
    ensures Join([line] + lines) == line + [NEWLINE] + Join(lines)
  {
    var init, last := lines[..|lines| - 1], lines[|lines| - 1];
    assert ([line] + lines)[..|lines|] == [line] + init;
    if init == [] {
      assert [line] + init == [line];
    } else {
      JoinCons(line, init);
      assert (line + [NEWLINE] + Join(init)) + [NEWLINE] + last
          == line + [NEWLINE] + (Join(init) + [NEWLINE] + last);
    }
  }

  /** A text split at its line breaks and joined again is the text. */
  lemma {:induction false} SplitThenJoined(t: Text)
    ensures Join(SplitLines(t)) == t
    decreases |t|
  {
    var k := FirstNewline(t);
    if k < |t| {
      var first, rest := t[..k], t[k + 1..];
      SplitThenJoined(rest);
      JoinCons(first, SplitLines(rest));
      BreakAt(t, k);
    }
  }

  lemma BreakAt(t: Text, k: nat)
    requires k < |t| && t[k] == NEWLINE
    ensures t[..k] + [NEWLINE] + t[k + 1..] == t
  {
  }

  predicate IsLine(line: Text) {
    NEWLINE !in line && !EndsInCr(line)
  }

  lemma {:induction false} WrittenLinesAreRead(lines: seq<Text>)
    requires forall i :: 0 <= i < |lines| ==> IsLine(lines[i])
    ensures Lines(WriteLines(lines)) == lines
    decreases |lines|
  {
    if lines != [] {
      var text, k := WriteLines(lines), |lines[0]|;
      assert text[..k] == lines[0] && text[k + 1..] == WriteLines(lines[1..]);
      LinesUnfold(text, k);
      WrittenLinesAreRead(lines[1..]);
    }
  }

  // ---------------------------------------------------------------------
  // Events.

  /** A field value the reader gives back as it was: on one line, not ending in a carriage return, and with
      nothing at its start that trimming would take with the space. */
  ghost predicate IsValue(trimStart: Text -> Text, value: Text) {
    IsLine(value) && trimStart([SPACE] + value) == value
  }

  ghost predicate Sendable(trimStart: Text -> Text, e: Sent) {
    IsValue(trimStart, e.name)
    && forall i :: 0 <= i < |SplitLines(e.data)| ==> IsValue(trimStart, SplitLines(e.data)[i])
  }

  ghost predicate AllSendable(trimStart: Text -> Text, events: seq<Sent>) {
    forall i :: 0 <= i < |events| ==> Sendable(trimStart, events[i])
  }

  lemma {:induction false} TakeLinesAppend(trimStart: Text -> Text, s: BodyState, a: seq<Text>, b: seq<Text>)
    ensures TakeBodyLines(trimStart, s, a + b) == TakeBodyLines(trimStart, TakeBodyLines(trimStart, s, a), b)
    decreases |a|
  {
    if a == [] {
      assert a + b == b;
    } else {
      assert (a + b)[1..] == a[1..] + b;
      TakeLinesAppend(trimStart, TakeBodyLine(trimStart, s, a[0]), a[1..], b);
    }
  }

  lemma DataLineTaken(trimStart: Text -> Text, s: BodyState, line: Text)
    requires IsValue(trimStart, line)
    ensures var written := DATA + [SPACE] + line;
            TakeBodyLine(trimStart, s, written) == s.(raw := s.raw + [written], data := s.data + [line])
  {
    var written := DATA + [SPACE] + line;
    assert written[0] != EVENT[0];
    assert DATA <= written && written[|DATA|..] == [SPACE] + line;
  }

  lemma {:induction false} DataLinesTaken(trimStart: Text -> Text, s: BodyState, lines: seq<Text>)
    requires forall i :: 0 <= i < |lines| ==> IsValue(trimStart, lines[i])
    ensures TakeBodyLines(trimStart, s, DataLines(lines))
         == s.(raw := s.raw + DataLines(lines), data := s.data + lines)
    decreases |lines|
  {
    if lines == [] {
      assert s.raw + [] == s.raw && s.data + [] == s.data;
    } else {
      var written, rest := DATA + [SPACE] + lines[0], lines[1..];
      var s' := s.(raw := s.raw + [written], data := s.data + [lines[0]]);
      DataLineTaken(trimStart, s, lines[0]);
      DataLinesTaken(trimStart, s', rest);
      OneMoreLine(s.raw, written, DataLines(rest));
      OneMoreLine(s.data, lines[0], rest);
      DataLinesCons(lines);
    }
  }

  lemma OneMoreLine(before: seq<Text>, line: Text, rest: seq<Text>)
    ensures (before + [line]) + rest == before + ([line] + rest)
  {
  }

  lemma DataLinesCons(lines: seq<Text>)
    requires lines != []
    ensures lines == [lines[0]] + lines[1..]
    ensures DataLines(lines) == [DATA + [SPACE] + lines[0]] + DataLines(lines[1..])
    ensures DataLines(lines)[0] == DATA + [SPACE] + lines[0] && DataLines(lines)[1..] == DataLines(lines[1..])
  {
  }

  lemma NameTaken(trimStart: Text -> Text, s: BodyState, name: Text)
    requires IsValue(trimStart, name)
    ensures var written := EVENT + [SPACE] + name;
            TakeBodyLine(trimStart, s, written) == s.(raw := s.raw + [written], event := Some(name))
  {
    var written := EVENT + [SPACE] + name;
    assert EVENT <= written && written[|EVENT|..] == [SPACE] + name;
  }

  lemma EventTaken(trimStart: Text -> Text, events: seq<SseEvent>, e: Sent)
    requires Sendable(trimStart, e)
    ensures TakeBodyLines(trimStart, BodyState(events, None, [], []), EventLines(e) + [[]])
         == BodyState(events + [SseEvent(Some(e.name), e.data, EventLines(e))], None, [], [])
  {
    var first, lines := EVENT + [SPACE] + e.name, SplitLines(e.data);
    var s := BodyState(events, None, [], []);
    var named := s.(raw := [first], event := Some(e.name));
    NameTaken(trimStart, s, e.name);
    assert s.raw + [first] == [first];
    DataLinesTaken(trimStart, named, lines);
    var read := named.(raw := [first] + DataLines(lines), data := lines);
    assert [] + lines == lines;
    assert EventLines(e)[0] == first && EventLines(e)[1..] == DataLines(lines);
    assert TakeBodyLines(trimStart, s, EventLines(e)) == read;
    TakeBodyLinesSnoc(trimStart, s, EventLines(e), []);
    SplitThenJoined(e.data);
  }

  lemma {:induction false} AllTaken(trimStart: Text -> Text, before: seq<SseEvent>, events: seq<Sent>)
    requires AllSendable(trimStart, events)
    ensures TakeBodyLines(trimStart, BodyState(before, None, [], []), AllLines(events))
         == BodyState(before + ReadBack(events), None, [], [])
    decreases |events|
  {
    if events == [] {
      assert before + [] == before;
    } else {
      var e, rest := events[0], events[1..];
      var next := before + [SseEvent(Some(e.name), e.data, EventLines(e))];
      TakeLinesAppend(trimStart, BodyState(before, None, [], []), EventLines(e) + [[]], AllLines(rest));
      EventTaken(trimStart, before, e);
      AllTaken(trimStart, next, rest);
      assert ReadBack(events) == [ReadBack(events)[0]] + ReadBack(rest);
      assert next + ReadBack(rest) == before + ReadBack(events);
    }
  }

  lemma FieldIsLine(field: Text, trimStart: Text -> Text, value: Text)
    requires IsValue(trimStart, value) && NEWLINE !in field
    ensures IsLine(field + [SPACE] + value)
  {
    var written := field + [SPACE] + value;
    assert written[|written| - 1] == if value == [] then SPACE else value[|value| - 1];
  }

  lemma {:induction false} WrittenAreLines(trimStart: Text -> Text, events: seq<Sent>)
    requires AllSendable(trimStart, events)
    ensures forall i :: 0 <= i < |AllLines(events)| ==> IsLine(AllLines(events)[i])
    decreases |events|
  {
    if events != [] {
      WrittenAreLines(trimStart, events[1..]);
      EventIsLines(trimStart, events[0]);
    }
  }

  lemma EventIsLines(trimStart: Text -> Text, e: Sent)
    requires Sendable(trimStart, e)
    ensures forall i :: 0 <= i < |EventLines(e)| ==> IsLine(EventLines(e)[i])
  {
    FieldIsLine(EVENT, trimStart, e.name);
    forall i | 0 <= i < |SplitLines(e.data)|
      ensures IsLine(DataLines(SplitLines(e.data))[i])
    {
      FieldIsLine(DATA, trimStart, SplitLines(e.data)[i]);
    }
  }

  /** Whatever events are written, the whole-body reader finds exactly these, each with its name, its text
      and its lines. */
  lemma WrittenEventsReadBack(trimStart: Text -> Text, events: seq<Sent>)
    requires AllSendable(trimStart, events)
    ensures ParseBody(trimStart, WriteEvents(events)) == ReadBack(events)
  {
    WrittenAreLines(trimStart, events);
    WrittenLinesAreRead(AllLines(events));
    AllTaken(trimStart, [], events);
    assert [] + ReadBack(events) == ReadBack(events);
  }

  // ---------------------------------------------------------------------
  // The streaming reader.

  /** The values sent: those of the texts that can be read, but for the word that ends a stream. */
  function Values<V>(reading: Reading<V>, events: seq<Sent>): seq<V> {
    if events == [] then []
    else
      var last := events[|events| - 1].data;
      Values(reading, events[..|events| - 1])
      + if reading.trim(last) == DONE || reading.decode(last).Failure? then [] else [reading.decode(last).value]
  }

  lemma {:induction false} ValuesAreThoseRead<V>(reading: Reading<V>, events: seq<Sent>)
    ensures Payloads(reading, ReadBack(events)) == Values(reading, events)
  {
    if events != [] {
      var init, last := events[..|events| - 1], events[|events| - 1];
      ValuesAreThoseRead(reading, init);
      assert ReadBack(events)[..|events| - 1] == ReadBack(init);
      assert DATA <= EventLines(last)[1];
    }
  }

  lemma WrittenTextIsWhole(events: seq<Sent>)
    ensures Content(WriteEvents(events)) == WriteEvents(events) && !EndsInCr(WriteEvents(events))
  {
    var text := WriteEvents(events);
    EndsInNewline(AllLines(events));
    if events != [] {
      assert AllLines(events)[0] == EVENT + [SPACE] + events[0].name;
      assert text[0] == EVENT[0] && BOM[0] != EVENT[0];
    }
  }

  lemma {:induction false} EndsInNewline(lines: seq<Text>)
    ensures WriteLines(lines) != [] ==> WriteLines(lines)[|WriteLines(lines)| - 1] == NEWLINE
    decreases |lines|
  {
    if lines != [] {
      EndsInNewline(lines[1..]);
    }
  }

  /** Whatever events are written and however their bytes are cut into pieces, the streaming reader yields
      exactly the values sent, in order. */
  lemma WrittenEventsAreStreamed<V>(reading: Reading<V>, events: seq<Sent>, chunks: seq<seq<Byte>>)
    requires AllSendable(reading.trimStart, events) && WellFormed(reading, AllLines(events))
    requires Flatten(chunks) == WriteEvents(events)
    ensures FinishState(reading, PushAll(reading, chunks)).events == Values(reading, events)
  {
    WrittenTextIsWhole(events);
    WrittenAreLines(reading.trimStart, events);
    WrittenLinesAreRead(AllLines(events));
    StreamingReadsWhatTheWholeBodyHolds(reading, chunks);
    WrittenEventsReadBack(reading.trimStart, events);
    ValuesAreThoseRead(reading, events);
  }
}
