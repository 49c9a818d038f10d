/** The decoder for AWS event-stream frames: bytes arrive in arbitrary pieces, frames leave whole.

    How the text of a payload is read as JSON is a parameter. */
module AwsEventStream {
  import opened Wrappers
  import opened Bytes

  /** What draining a buffer yields: the values of the frames consumed, the bytes left, and the error
      that stopped it, if one did. */
  datatype Drained<V> = Drained(events: seq<V>, residue: seq<Byte>, error: Option<string>)

  datatype Head =
    | Incomplete
    | Invalid
    | Complete(total: nat, payload: seq<Byte>)

  /** The frame at the head of the buffer. */
  function ReadHead(buffer: seq<Byte>): (head: Head)
    ensures head.Complete? ==> 16 <= head.total <= |buffer|
  {
    if |buffer| < 12 then Incomplete
    else
      var total := FromBigEndian(buffer[0..4]);
      var headers := FromBigEndian(buffer[4..8]);
      if total < 16 || headers > total - 16 then Invalid
      else if |buffer| < total then Incomplete
      else Complete(total, buffer[12 + headers..total - 4])
  }

  function Drain<V>(decode: seq<Byte> -> Result<V>, buffer: seq<Byte>): (d: Drained<V>)
    decreases |buffer|
  {
    match ReadHead(buffer)
    case Incomplete => Drained([], buffer, None)
    case Invalid => Drained([], buffer, Some("Invalid AWS EventStream frame length"))
    case Complete(total, payload) =>
      if payload == [] then Drain(decode, buffer[total..])
      else
        match decode(payload)
        case Failure(error) => Drained([], buffer, Some("Could not parse AWS EventStream JSON: " + error))
        case Success(value) =>
          var rest := Drain(decode, buffer[total..]);
          rest.(events := [value] + rest.events)
  }

  /** What a drain leaves is the end of the buffer, each value took at least 16 bytes, and it only
      stops without an error where no whole frame is left. */
  lemma {:induction false} DrainShape<V>(decode: seq<Byte> -> Result<V>, buffer: seq<Byte>)
    ensures var d := Drain(decode, buffer);
            && |d.residue| + 16 * |d.events| <= |buffer|
            && d.residue == buffer[|buffer| - |d.residue|..]
            && (d.error.None? ==> ReadHead(d.residue).Incomplete?)
    decreases |buffer|
  {
    var head := ReadHead(buffer);
    if head.Complete? {
      var rest := buffer[head.total..];
      DrainShape(decode, rest);
      var left := |Drain(decode, rest).residue|;
      assert rest[|rest| - left..] == buffer[|buffer| - left..];
    }
  }

  lemma DrainComplete<V>(decode: seq<Byte> -> Result<V>, buffer: seq<Byte>, total: nat, payload: seq<Byte>)
    requires ReadHead(buffer) == Complete(total, payload)
    ensures var rest := Drain(decode, buffer[total..]);
            Drain(decode, buffer) ==
            if payload == [] then rest
            else if decode(payload).Failure?
            then Drained([], buffer, Some("Could not parse AWS EventStream JSON: " + decode(payload).error))
            else rest.(events := [decode(payload).value] + rest.events)
  {
  }

  class AwsEventStreamJsonParser<V(!new)> {
    const decode: seq<Byte> -> Result<V>
    var buffer: seq<Byte>

    constructor (decode: seq<Byte> -> Result<V>)
      ensures buffer == [] && this.decode == decode
    {
      this.decode, buffer := decode, [];
    }

    /** Every slice is in range, every round consumes at least 16 bytes, and what is appended and
        kept is what draining the buffer yields. */
    method DrainEvents(events: seq<V>) returns (out: seq<V>, r: Result<()>)
      modifies this
      ensures var d := Drain(decode, old(buffer));
              && out == events + d.events && buffer == d.residue
              && r == match d.error case None => Success(()) case Some(error) => Failure(error)
    {
      out := events;
      ghost var whole := Drain(decode, buffer);
      while true
        invariant out + Drain(decode, buffer).events == events + whole.events
        invariant Drain(decode, buffer).residue == whole.residue && Drain(decode, buffer).error == whole.error
        decreases |buffer|
      {
        var head := FrameAtHead();
        match head {
          case Incomplete =>
            return out, Success(());
          case Invalid =>
            return out, Failure("Invalid AWS EventStream frame length");
          case Complete(total, payload) =>
            DrainComplete(decode, buffer, total, payload);
            if payload != [] {
              var value := decode(payload);
              if value.Failure? {
                return out, Failure("Could not parse AWS EventStream JSON: " + value.error);
              }
              Regroup(out, value.value, Drain(decode, buffer[total..]).events);
              out := out + [value.value];
            }
            buffer := buffer[total..];
        }
      }
    }

    /** The checks at the head of the buffer, in the order they are made. */
    method FrameAtHead() returns (head: Head)
      ensures head == ReadHead(buffer)
      ensures head.Complete? ==> 16 <= head.total <= |buffer|
    {
      if |buffer| < 12 {
        return Incomplete;
      }
      var total := FromBigEndian(buffer[0..4]);
      var headers := FromBigEndian(buffer[4..8]);
      if total < 16 || headers > (if total >= 16 then total - 16 else 0) {
        return Invalid;
      }
      if |buffer| < total {
        return Incomplete;
      }
      var payloadStart := 12 + headers;
      var payloadEnd := total - 4;
      return Complete(total, buffer[payloadStart..payloadEnd]);
    }

    method PushBytes(bytes: seq<Byte>, events: seq<V>) returns (out: seq<V>, r: Result<()>)
      modifies this
      ensures Progress(out, buffer, r.Failure?)
           == Push(decode, Progress(events, old(buffer), false), bytes)
    {
      buffer := buffer + bytes;
      out, r := DrainEvents(events);
    }

    method Finish(events: seq<V>) returns (out: seq<V>, r: Result<()>)
      modifies this
      ensures Progress(out, buffer, false) == Push(decode, Progress(events, old(buffer), false), []).(failed := false)
      ensures r.Success? <==> Drain(decode, old(buffer)).error.None? && buffer == []
    {
      assert buffer + [] == buffer;
      out, r := DrainEvents(events);
      if r.Success? && buffer != [] {
        r := Failure("Incomplete AWS EventStream frame");
      }
    }
  }

  lemma Regroup<V>(a: seq<V>, v: V, b: seq<V>)
    ensures a + ([v] + b) == (a + [v]) + b
  {
  }

  // ---------------------------------------------------------------------
  // Pushes.

  datatype Progress<V> = Progress(events: seq<V>, buffer: seq<Byte>, failed: bool)

  function Push<V>(decode: seq<Byte> -> Result<V>, p: Progress<V>, bytes: seq<Byte>): Progress<V> {
    var d := Drain(decode, p.buffer + bytes);
    Progress(p.events + d.events, d.residue, d.error.Some?)
  }

  function PushAll<V>(decode: seq<Byte> -> Result<V>, chunks: seq<seq<Byte>>): Progress<V> {
    if chunks == [] then Progress([], [], false)
    else Push(decode, PushAll(decode, chunks[..|chunks| - 1]), chunks[|chunks| - 1])
  }

  lemma HeadIsStable(buffer: seq<Byte>, more: seq<Byte>)
    requires !ReadHead(buffer).Incomplete?
    ensures ReadHead(buffer + more) == ReadHead(buffer)
    ensures ReadHead(buffer).Complete? ==>
              (buffer + more)[ReadHead(buffer).total..] == buffer[ReadHead(buffer).total..] + more
  {
    assert (buffer + more)[0..4] == buffer[0..4] && (buffer + more)[4..8] == buffer[4..8];
    if ReadHead(buffer).Complete? {
      var total := FromBigEndian(buffer[0..4]);
      var headers := FromBigEndian(buffer[4..8]);
      assert (buffer + more)[12 + headers..total - 4] == buffer[12 + headers..total - 4];
    }
  }

  /** Draining `a`, then what it left followed by `b`, comes to draining `a + b`. */
  ghost predicate Resumes<V>(whole: Drained<V>, first: Drained<V>, second: Drained<V>) {
    && whole == Drained(first.events + second.events, second.residue, second.error)
    && (first.error.Some? ==> second.events == [] && second.error == first.error)
  }

  lemma ResumesLater<V>(value: V, whole: Drained<V>, first: Drained<V>, second: Drained<V>)
    requires Resumes(whole, first, second)
    ensures Resumes(whole.(events := [value] + whole.events), first.(events := [value] + first.events), second)
  {
    assert [value] + (first.events + second.events) == ([value] + first.events) + second.events;
  }

  lemma DrainStopped<V>(decode: seq<Byte> -> Result<V>, a: seq<Byte>, b: seq<Byte>)
    requires !ReadHead(a).Complete?
    ensures Resumes(Drain(decode, a + b), Drain(decode, a), Drain(decode, Drain(decode, a).residue + b))
  {
    var second := Drain(decode, a + b);
    assert [] + second.events == second.events;
    if ReadHead(a).Invalid? {
      HeadIsStable(a, b);
    }
  }

  /** Draining may be interrupted anywhere: what has been drained stays drained, and an error stays. */
  lemma {:induction false} DrainAppend<V>(decode: seq<Byte> -> Result<V>, a: seq<Byte>, b: seq<Byte>)
    ensures Resumes(Drain(decode, a + b), Drain(decode, a), Drain(decode, Drain(decode, a).residue + b))
    decreases |a|
  {
    var head := ReadHead(a);
    if !head.Complete? {
      DrainStopped(decode, a, b);
    } else {
      HeadIsStable(a, b);
      DrainComplete(decode, a, head.total, head.payload);
      DrainComplete(decode, a + b, head.total, head.payload);
      DrainAppend(decode, a[head.total..], b);
      if head.payload != [] && decode(head.payload).Success? {
        var rest := Drain(decode, a[head.total..]);
        ResumesLater(decode(head.payload).value, Drain(decode, a[head.total..] + b), rest,
                     Drain(decode, rest.residue + b));
      }
    }
  }

  /** However the bytes are cut into pieces, the values, the bytes left over and the verdict after the
      last piece are those of one push of everything. */
  lemma {:induction false} ChunkingDoesNotMatter<V>(decode: seq<Byte> -> Result<V>, chunks: seq<seq<Byte>>)
    ensures var d := Drain(decode, Flatten(chunks));
            PushAll(decode, chunks) == Progress(d.events, d.residue, d.error.Some?)
  {
    if chunks != [] {
      var init := chunks[..|chunks| - 1];
      ChunkingDoesNotMatter(decode, init);
      DrainAppend(decode, Flatten(init), chunks[|chunks| - 1]);
    }
  }

  // ---------------------------------------------------------------------
  // The other direction: writing frames.

  /** A frame: its headers, its payload, and the two checksums, which the decoder does not look at. */
  datatype Frame = Frame(headers: seq<Byte>, payload: seq<Byte>, preludeSum: seq<Byte>, messageSum: seq<Byte>)

  function FrameLength(f: Frame): nat {
    16 + |f.headers| + |f.payload|
  }

  predicate Representable(f: Frame) {
    FrameLength(f) < 0x1_0000_0000 && |f.preludeSum| == 4 && |f.messageSum| == 4
  }

  function Encode(f: Frame): (bytes: seq<Byte>)
    requires Representable(f)
    ensures |bytes| == FrameLength(f)
  {
    ToBigEndian(FrameLength(f)) + ToBigEndian(|f.headers|) + f.preludeSum + f.headers + f.payload + f.messageSum
  }

  function EncodeAll(frames: seq<Frame>): seq<Byte>
    requires forall f :: f in frames ==> Representable(f)
  {
    if frames == [] then [] else Encode(frames[0]) + EncodeAll(frames[1..])
  }

  lemma EncodedHead(f: Frame, rest: seq<Byte>)
    requires Representable(f)
    ensures ReadHead(Encode(f) + rest) == Complete(FrameLength(f), f.payload)
    ensures (Encode(f) + rest)[FrameLength(f)..] == rest
  {
    var bytes := Encode(f) + rest;
    BigEndianRoundTrip(FrameLength(f));
    BigEndianRoundTrip(|f.headers|);
    assert bytes[0..4] == ToBigEndian(FrameLength(f));
    assert bytes[4..8] == ToBigEndian(|f.headers|);
    assert bytes[12 + |f.headers|..FrameLength(f) - 4] == f.payload;
  }

  /** The values of the non-empty payloads, in order, up to the first that cannot be read. */
  function Decoded<V>(decode: seq<Byte> -> Result<V>, frames: seq<Frame>): seq<V> {
    if frames == [] then []
    else if frames[0].payload == [] then Decoded(decode, frames[1..])
    else if decode(frames[0].payload).Failure? then []
    else [decode(frames[0].payload).value] + Decoded(decode, frames[1..])
  }

  predicate Readable<V>(decode: seq<Byte> -> Result<V>, frames: seq<Frame>) {
    forall f :: f in frames ==> f.payload == [] || decode(f.payload).Success?
  }

  lemma ReadableCons<V>(decode: seq<Byte> -> Result<V>, frames: seq<Frame>)
    requires frames != []
    ensures Readable(decode, frames) <==>
              (frames[0].payload == [] || decode(frames[0].payload).Success?) && Readable(decode, frames[1..])
  {
    assert frames == [frames[0]] + frames[1..];
  }

  /** Reading back any list of frames, followed by any unfinished one, gives exactly the non-empty
      payloads, and it fails exactly when one of them cannot be read. */
  lemma {:induction false} FramesRoundTrip<V>(decode: seq<Byte> -> Result<V>, frames: seq<Frame>, tail: seq<Byte>)
    requires (forall f :: f in frames ==> Representable(f)) && ReadHead(tail).Incomplete?
    ensures var d := Drain(decode, EncodeAll(frames) + tail);
            && d.events == Decoded(decode, frames)
            && (d.error.None? <==> Readable(decode, frames))
            && (Readable(decode, frames) ==> d.residue == tail)
  {
    if frames == [] {
      assert [] + tail == tail;
    } else {
      var rest := EncodeAll(frames[1..]) + tail;
      assert EncodeAll(frames) + tail == Encode(frames[0]) + rest;
      EncodedHead(frames[0], rest);
      DrainComplete(decode, Encode(frames[0]) + rest, FrameLength(frames[0]), frames[0].payload);
      ReadableCons(decode, frames);
      FramesRoundTrip(decode, frames[1..], tail);
    }
  }

  // ---------------------------------------------------------------------
  // Which bytes are refused, and which are waited on.

  predicate HasLengths(f: Frame, total: nat, headers: nat) {
    Representable(f) && FrameLength(f) == total && |f.headers| == headers
  }

  lemma FrameWithLengths(total: nat, headers: nat) returns (f: Frame)
    requires 16 + headers <= total < 0x1_0000_0000
    ensures HasLengths(f, total, headers)
  {
    f := Frame(seq(headers, i => 0), seq(total - 16 - headers, i => 0), [0, 0, 0, 0], [0, 0, 0, 0]);
  }

  /** Two lengths are refused as soon as they are read, and exactly when no frame has them. */
  lemma LengthsRefusedExactlyWhen<V>(decode: seq<Byte> -> Result<V>, total: nat, headers: nat, sum: seq<Byte>,
                                     rest: seq<Byte>)
    requires total < 0x1_0000_0000 && headers < 0x1_0000_0000 && |sum| == 4
    ensures var buffer := ToBigEndian(total) + ToBigEndian(headers) + sum + rest;
            var refused := Drained([], buffer, Some("Invalid AWS EventStream frame length"));
            if forall f :: !HasLengths(f, total, headers) then Drain(decode, buffer) == refused
            else !ReadHead(buffer).Invalid?
  {
    var buffer := ToBigEndian(total) + ToBigEndian(headers) + sum + rest;
    BigEndianRoundTrip(total);
    BigEndianRoundTrip(headers);
    assert buffer[0..4] == ToBigEndian(total) && buffer[4..8] == ToBigEndian(headers);
    if 16 + headers <= total {
      var f := FrameWithLengths(total, headers);
    }
  }

  /** What has arrived of a frame is kept until the rest comes. */
  lemma UnfinishedFrameIsKept<V>(decode: seq<Byte> -> Result<V>, f: Frame, cut: nat)
    requires Representable(f) && cut < FrameLength(f)
    ensures Drain(decode, Encode(f)[..cut]) == Drained([], Encode(f)[..cut], None)
  {
    var bytes := Encode(f)[..cut];
    BigEndianRoundTrip(FrameLength(f));
    BigEndianRoundTrip(|f.headers|);
    if cut >= 12 {
      assert bytes[0..4] == ToBigEndian(FrameLength(f)) && bytes[4..8] == ToBigEndian(|f.headers|);
    }
  }

  /** A frame byte by byte: two length fields, a checksum, the headers, the payload, a checksum. */
  lemma KnownFrame<V>(decode: seq<Byte> -> Result<V>, prelude: seq<Byte>, message: seq<Byte>, rest: seq<Byte>)
    requires |prelude| == 4 && |message| == 4 && decode([123, 125]).Success?
    ensures var buffer := [0, 0, 0, 21, 0, 0, 0, 3] + prelude + [7, 8, 9] + [123, 125] + message + rest;
            Drain(decode, buffer).events == [decode([123, 125]).value] + Drain(decode, rest).events
  {
    var f := Frame([7, 8, 9], [123, 125], prelude, message);
    assert Encode(f) == [0, 0, 0, 21, 0, 0, 0, 3] + prelude + [7, 8, 9] + [123, 125] + message;
    EncodedHead(f, rest);
    DrainComplete(decode, Encode(f) + rest, 21, [123, 125]);
  }
}
