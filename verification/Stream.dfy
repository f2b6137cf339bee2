/** Reassembly of the OpenFlow byte stream (controller/controller.py). */
module Stream {
  type Byte = nat

  const OFP_HEADER_SIZE := 8

  /** The length field of a header (section 5.1 of the OpenFlow Switch
      Specification 1.0.0): bytes 2 and 3, most significant first. */
  function LengthField(buf: seq<Byte>): nat
    requires |buf| >= OFP_HEADER_SIZE
  {
    buf[2] * 256 + buf[3]
  }

  /** A complete message stands at the front. */
  predicate Ready(buf: seq<Byte>) {
    |buf| >= OFP_HEADER_SIZE && LengthField(buf) <= |buf|
  }

  /** No header that the loop gets to look at has length zero. */
  predicate Sane(bytes: seq<Byte>)
    decreases |bytes|
  {
    |bytes| < OFP_HEADER_SIZE || (LengthField(bytes) > 0 && (Ready(bytes) ==> Sane(bytes[LengthField(bytes)..])))
  }

  /** The complete messages at the front of the bytes, and what is left. */
  function Split(bytes: seq<Byte>): (seq<seq<Byte>>, seq<Byte>)
    decreases |bytes|
  {
    if !Ready(bytes) || LengthField(bytes) == 0 then ([], bytes)
    else
      var (messages, rest) := Split(bytes[LengthField(bytes)..]);
      ([bytes[..LengthField(bytes)]] + messages, rest)
  }

  function Flatten(messages: seq<seq<Byte>>): seq<Byte>
    decreases |messages|
  {
    if messages == [] then [] else messages[0] + Flatten(messages[1..])
  }

  // ------------------------------------------------ what Split is, otherwise

  /** A message of the length its own header gives. */
  predicate Framed(m: seq<Byte>) {
    |m| >= OFP_HEADER_SIZE && LengthField(m) == |m|
  }

  /** The framing is unique: however the bytes are written as framed messages
      followed by an incomplete rest, it is what Split finds. */
  lemma {:induction false} SplitIsTheFraming(messages: seq<seq<Byte>>, rest: seq<Byte>)
    requires (forall m | m in messages :: Framed(m)) && !Ready(rest)
    ensures Split(Flatten(messages) + rest) == (messages, rest)
    ensures Sane(Flatten(messages) + rest)
    decreases |messages|
  {
    hide Split, Sane, Ready, Framed;
    if messages == [] {
      assert [] + rest == rest;
      TakeNone(rest);
    } else {
      var m, tail := messages[0], Flatten(messages[1..]) + rest;
      SplitIsTheFraming(messages[1..], rest);
      assert messages[0] in messages && Flatten(messages) + rest == m + tail;
      OneMessage(m, tail);
      assert messages == [m] + messages[1..];
    }
  }

  lemma OneMessage(m: seq<Byte>, tail: seq<Byte>)
    requires Framed(m)
    ensures Split(m + tail) == ([m] + Split(tail).0, Split(tail).1)
    ensures Sane(m + tail) <==> Sane(tail)
  {
    assert LengthField(m + tail) == |m| && (m + tail)[|m|..] == tail && (m + tail)[..|m|] == m;
  }

  lemma TakeNone(buf: seq<Byte>)
    requires !Ready(buf)
    ensures Split(buf) == ([], buf) && Sane(buf)
  {
  }

  /** Nothing is lost, and only an incomplete message is left over. */
  lemma {:induction false} SplitConserves(bytes: seq<Byte>)
    ensures var (messages, rest) := Split(bytes);
            && Flatten(messages) + rest == bytes
            && (Sane(bytes) ==> !Ready(rest) && Sane(rest))
            && (forall m | m in messages :: 0 < |m| && (|m| >= OFP_HEADER_SIZE ==> Framed(m)))
    decreases |bytes|
  {
    if Ready(bytes) && LengthField(bytes) > 0 {
      var n := LengthField(bytes);
      SplitConserves(bytes[n..]);
      var (messages, rest) := Split(bytes[n..]);
      var all := Split(bytes).0;
      assert all[0] == bytes[..n] && all[1..] == messages;
      assert bytes == bytes[..n] + bytes[n..];
    }
  }

  /** More bytes do not change the messages already found, nor whether the loop
      has come upon a header of length zero. */
  lemma {:induction false} SplitMore(a: seq<Byte>, b: seq<Byte>)
    ensures Split(a + b).0 == Split(a).0 + Split(Split(a).1 + b).0
    ensures Split(a + b).1 == Split(Split(a).1 + b).1
    ensures Sane(a + b) <==> Sane(Split(a).1 + b)
    ensures Sane(a + b) ==> Sane(a)
    decreases |a|
  {
    hide Split, Sane;
    SplitStep(a);
    if Ready(a) && LengthField(a) > 0 {
      var n := LengthField(a);
      SameHeader(a, b);
      SplitStep(a + b);
      assert (a + b)[n..] == a[n..] + b && (a + b)[..n] == a[..n];
      SplitMore(a[n..], b);
      var later := Split(Split(a).1 + b).0;
      assert [a[..n]] + (Split(a[n..]).0 + later) == ([a[..n]] + Split(a[n..]).0) + later;
    } else {
      assert [] + Split(a + b).0 == Split(a + b).0;
      if Ready(a) {
        SameHeader(a, b);
        SplitStep(a + b);
      }
    }
  }

  /** One step of the framing. */
  lemma SplitStep(buf: seq<Byte>)
    ensures if Ready(buf) && LengthField(buf) > 0
            then && Split(buf) == ([buf[..LengthField(buf)]] + Split(buf[LengthField(buf)..]).0, Split(buf[LengthField(buf)..]).1)
                 && (Sane(buf) <==> Sane(buf[LengthField(buf)..]))
            else Split(buf) == ([], buf) && (Sane(buf) <==> !Ready(buf))
  {
  }

  lemma SameHeader(a: seq<Byte>, b: seq<Byte>)
    requires Ready(a)
    ensures Ready(a + b) && LengthField(a + b) == LengthField(a)
  {
  }

  /** The streams on which the loop gets stuck: those whose framing ends before
      a complete message, which then gives its own length as zero. */
  lemma {:induction false} StallsExactly(bytes: seq<Byte>)
    ensures Sane(bytes) <==> !Ready(Split(bytes).1)
    ensures !Sane(bytes) ==> LengthField(Split(bytes).1) == 0
    decreases |bytes|
  {
    if Ready(bytes) && LengthField(bytes) > 0 { StallsExactly(bytes[LengthField(bytes)..]); }
  }

  /** The bytes of the chunks that recv returns, up to the empty one. */
  function Received(chunks: seq<seq<Byte>>): seq<Byte>
    decreases |chunks|
  {
    if chunks == [] || chunks[0] == [] then [] else chunks[0] + Received(chunks[1..])
  }

  // ----------------------------------------------------------------- the loop

  /** The loop between two calls of recv: what it framed, what it holds and how
      many bytes it waits for; stalled once it turns for ever on a header of
      length zero. */
  datatype Loop = Loop(messages: seq<seq<Byte>>, buf: seq<Byte>, requiredLen: nat, stalled: bool) {

    /** Either no header is known, or the length of the one at the front is. */
    predicate Ok() {
      requiredLen == OFP_HEADER_SIZE || (|buf| >= OFP_HEADER_SIZE && requiredLen == LengthField(buf))
    }
  }

  const START := Loop([], [], OFP_HEADER_SIZE, false)

  /** The inner loop. */
  function Inner(s: Loop): Loop
    requires s.Ok()
    decreases |s.buf|
  {
    if |s.buf| < s.requiredLen then s
    else if LengthField(s.buf) == 0 then s.(stalled := true)
    else if |s.buf| < LengthField(s.buf) then s.(requiredLen := LengthField(s.buf))
    else
      var n := LengthField(s.buf);
      Inner(Loop(s.messages + [s.buf[..n]], s.buf[n..], OFP_HEADER_SIZE, s.stalled))
  }

  /** What recv returned is appended, and the inner loop runs. */
  function Feed(s: Loop, chunk: seq<Byte>): Loop
    requires s.Ok()
  {
    if s.stalled then s else Inner(s.(buf := s.buf + chunk))
  }

  /** All chunks, up to the empty one. */
  function Run(s: Loop, chunks: seq<seq<Byte>>): Loop
    requires s.Ok()
    decreases |chunks|
  {
    if chunks == [] || chunks[0] == [] then s
    else
      InnerOk(s.(buf := s.buf + chunks[0]));
      Run(Feed(s, chunks[0]), chunks[1..])
  }

  lemma {:induction false} InnerOk(s: Loop)
    requires s.Ok()
    ensures Inner(s).Ok()
    decreases |s.buf|
  {
    if |s.buf| >= s.requiredLen && |s.buf| >= OFP_HEADER_SIZE && 0 < LengthField(s.buf) <= |s.buf| {
      var n := LengthField(s.buf);
      InnerOk(Loop(s.messages + [s.buf[..n]], s.buf[n..], OFP_HEADER_SIZE, s.stalled));
    }
  }

  /** What the loop waits for, by what it holds. */
  function Needed(buf: seq<Byte>): nat {
    if |buf| >= OFP_HEADER_SIZE then LengthField(buf) else OFP_HEADER_SIZE
  }

  /** Where the loop stands once it has received the bytes, whatever the pieces
      they came in. */
  ghost predicate StandsAt(s: Loop, bytes: seq<Byte>) {
    && s.Ok()
    && s.messages == Split(bytes).0
    && (s.stalled <==> !Sane(bytes))
    && (!s.stalled ==> s.buf == Split(bytes).1 && s.requiredLen == Needed(s.buf))
  }

  lemma {:induction false} InnerSplits(s: Loop)
    requires s.Ok() && !s.stalled
    ensures Inner(s).messages == s.messages + Split(s.buf).0
    ensures Inner(s).stalled <==> !Sane(s.buf)
    ensures !Inner(s).stalled ==> Inner(s).buf == Split(s.buf).1 && Inner(s).requiredLen == Needed(Inner(s).buf)
    decreases |s.buf|
  {
    if |s.buf| >= OFP_HEADER_SIZE && 0 < LengthField(s.buf) <= |s.buf| {
      var n := LengthField(s.buf);
      InnerSplits(Loop(s.messages + [s.buf[..n]], s.buf[n..], OFP_HEADER_SIZE, s.stalled));
      assert s.messages + [s.buf[..n]] + Split(s.buf[n..]).0 == s.messages + ([s.buf[..n]] + Split(s.buf[n..]).0);
    } else {
      assert s.messages + [] == s.messages;
    }
  }

  lemma FeedStands(s: Loop, bytes: seq<Byte>, chunk: seq<Byte>)
    requires StandsAt(s, bytes)
    ensures StandsAt(Feed(s, chunk), bytes + chunk)
  {
    hide Split, Sane, Inner;
    SplitMore(bytes, chunk);
    if s.stalled {
      StallsExactly(bytes);
      StuckStays(Split(bytes).1, chunk);
      assert Split(bytes).0 + [] == Split(bytes).0;
    } else {
      InnerOk(s.(buf := s.buf + chunk));
      InnerSplits(s.(buf := s.buf + chunk));
    }
  }

  lemma StuckStays(rest: seq<Byte>, chunk: seq<Byte>)
    requires Ready(rest) && LengthField(rest) == 0
    ensures Split(rest + chunk).0 == [] && !Sane(rest + chunk)
  {
    assert LengthField(rest + chunk) == 0;
  }

  lemma {:induction false} RunStands(s: Loop, bytes: seq<Byte>, chunks: seq<seq<Byte>>)
    requires StandsAt(s, bytes)
    ensures StandsAt(Run(s, chunks), bytes + Received(chunks))
    decreases |chunks|
  {
    hide Split, Sane, Feed;
    if chunks == [] || chunks[0] == [] {
      assert bytes + [] == bytes;
    } else {
      FeedStands(s, bytes, chunks[0]);
      RunStands(Feed(s, chunks[0]), bytes + chunks[0], chunks[1..]);
      assert bytes + chunks[0] + Received(chunks[1..]) == bytes + Received(chunks);
    }
  }

  /** Whatever the pieces, the loop frames the messages that the bytes consist of
      and gets stuck exactly on a header of length zero. */
  lemma LoopFrames(chunks: seq<seq<Byte>>)
    ensures StandsAt(Run(START, chunks), Received(chunks))
  {
    assert [] + Received(chunks) == Received(chunks);
    RunStands(START, [], chunks);
  }

  /** Reassembly does not depend on the pieces: from the same bytes in any two
      sequences of chunks the loop hands on the same messages in the same order,
      and unless both get stuck it holds the same bytes and waits for the same
      number. */
  lemma ChunkingDoesNotMatter(chunks: seq<seq<Byte>>, others: seq<seq<Byte>>)
    requires Received(chunks) == Received(others)
    ensures var s, t := Run(START, chunks), Run(START, others);
            && s.messages == t.messages
            && s.stalled == t.stalled
            && (s == t || s.stalled)
  {
    hide Split, Sane, Run;
    LoopFrames(chunks);
    LoopFrames(others);
  }

  /** _recv_loop on the chunks recv returns.  Where the source turns for ever,
      on a header of length zero, the method stops and says so. */
  method RecvLoop(chunks: seq<seq<Byte>>)
    returns (messages: seq<seq<Byte>>, buf: seq<Byte>, requiredLen: nat, stalled: bool)
    ensures Loop(messages, buf, requiredLen, stalled) == Run(START, chunks)
    ensures messages == Split(Received(chunks)).0
    ensures stalled <==> !Sane(Received(chunks))
    ensures !stalled ==> buf == Split(Received(chunks)).1
  {
    hide Split, Sane, Received;
    messages, buf, requiredLen, stalled := [], [], OFP_HEADER_SIZE, false;
    var count, active, i := 0, true, 0;
    LoopFrames(chunks);
    assert chunks[0..] == chunks;
    while active && !stalled && i < |chunks|
      invariant 0 <= i <= |chunks| && 0 <= count <= 2048
      invariant Loop(messages, buf, requiredLen, stalled).Ok()
      invariant Run(START, chunks) == if active && !stalled
                                      then Run(Loop(messages, buf, requiredLen, stalled), chunks[i..])
                                      else Loop(messages, buf, requiredLen, stalled)
    {
      var ret := chunks[i];
      i := i + 1;
      ghost var before := Loop(messages, buf, requiredLen, false);
      NextChunk(before, chunks, i - 1);
      if ret == [] {
        active := false;
        break;
      }
      buf := buf + ret;
      while |buf| >= requiredLen && !stalled
        invariant Loop(messages, buf, requiredLen, stalled).Ok() && 0 <= count <= 2048
        invariant Feed(before, ret) == if stalled then Loop(messages, buf, requiredLen, true)
                                       else Inner(Loop(messages, buf, requiredLen, false))
        decreases |buf|, !stalled
      {
        if LengthField(buf) == 0 {
          stalled := true;
        } else {
          requiredLen := LengthField(buf);
          if |buf| < requiredLen { break; }
          messages := messages + [buf[..requiredLen]];
          buf := buf[requiredLen..];
          requiredLen := OFP_HEADER_SIZE;
          count := count + 1;
          if count > 2048 { count := 0; }
        }
      }
      StalledStays(Loop(messages, buf, requiredLen, stalled), chunks[i..]);
    }
  }

  lemma NextChunk(s: Loop, chunks: seq<seq<Byte>>, i: nat)
    requires s.Ok() && i < |chunks|
    ensures chunks[i] == [] ==> Run(s, chunks[i..]) == s
    ensures chunks[i] != [] ==> Feed(s, chunks[i]).Ok()
                                && Run(s, chunks[i..]) == Run(Feed(s, chunks[i]), chunks[i + 1..])
  {
    InnerOk(s.(buf := s.buf + chunks[i]));
    assert chunks[i..][1..] == chunks[i + 1..];
  }

  lemma {:induction false} StalledStays(s: Loop, chunks: seq<seq<Byte>>)
    requires s.Ok()
    ensures s.stalled ==> Run(s, chunks) == s
    decreases |chunks|
  {
    if s.stalled && chunks != [] && chunks[0] != [] { StalledStays(s, chunks[1..]); }
  }

  // -------------------------------------------------- messages there and back

  datatype Message = Message(version: Byte, kind: Byte, xid: nat, body: seq<Byte>)

  /** Struct fields in network byte order. */
  function BigEndian(n: nat, width: nat): (bytes: seq<Byte>)
    ensures |bytes| == width
    decreases width
  {
    if width == 0 then [] else BigEndian(n / 256, width - 1) + [n % 256]
  }

  function ToNat(bytes: seq<Byte>): nat
    decreases |bytes|
  {
    if bytes == [] then 0 else ToNat(bytes[..|bytes| - 1]) * 256 + bytes[|bytes| - 1]
  }

  /** struct packs a message whose fields have the width of their formats. */
  predicate Packs(m: Message) {
    m.version < 256 && m.kind < 256 && OFP_HEADER_SIZE + |m.body| < 0x1_0000 && m.xid < 0x1_0000_0000
  }

  /** MsgBase.serialize: the header goes in front once the length is known. */
  function Serialize(m: Message): (bytes: seq<Byte>) {
    [m.version, m.kind] + BigEndian(OFP_HEADER_SIZE + |m.body|, 2) + BigEndian(m.xid, 4) + m.body
  }

  /** What the header of a framed message, and the parser behind it, are given. */
  function Decode(buf: seq<Byte>): Message
    requires |buf| >= OFP_HEADER_SIZE
  {
    Message(buf[0], buf[1], ToNat(buf[4..8]), buf[OFP_HEADER_SIZE..])
  }

  function SerializeAll(ms: seq<Message>): seq<seq<Byte>> {
    seq(|ms|, i requires 0 <= i < |ms| => Serialize(ms[i]))
  }

  /** A number of at most `width` bytes comes back. */
  lemma {:induction false} BigEndianBack(n: nat, width: nat)
    requires width <= 4 && n < [1, 0x100, 0x1_0000, 0x100_0000, 0x1_0000_0000][width]
    ensures ToNat(BigEndian(n, width)) == n
    decreases width
  {
    if width > 0 {
      BigEndianBack(n / 256, width - 1);
      assert BigEndian(n, width)[..width - 1] == BigEndian(n / 256, width - 1);
    }
  }

  /** The length that is packed is the length that the framing reads. */
  lemma LengthBack(n: nat)
    requires n < 0x1_0000
    ensures BigEndian(n, 2)[0] * 256 + BigEndian(n, 2)[1] == n
  {
    assert BigEndian(n, 2) == BigEndian(n / 256, 1) + [n % 256];
    assert BigEndian(n / 256, 1) == BigEndian(n / 256 / 256, 0) + [n / 256 % 256];
  }

  /** A message is framed by its own header, and read back as it was. */
  lemma MessageBack(m: Message)
    requires Packs(m)
    ensures Framed(Serialize(m)) && Decode(Serialize(m)) == m
  {
    var bytes := Serialize(m);
    LengthBack(OFP_HEADER_SIZE + |m.body|);
    BigEndianBack(m.xid, 4);
    assert bytes[4..8] == BigEndian(m.xid, 4) && bytes[OFP_HEADER_SIZE..] == m.body;
  }

  /** Whatever pieces the bytes of serialized messages come in, the loop hands on
      exactly these messages in their order, and does not get stuck; what is left
      over is the beginning of the next. */
  lemma MessagesArrive(ms: seq<Message>, rest: seq<Byte>, chunks: seq<seq<Byte>>)
    requires (forall m | m in ms :: Packs(m)) && !Ready(rest)
    requires Received(chunks) == Flatten(SerializeAll(ms)) + rest
    ensures var s := Run(START, chunks);
            && !s.stalled && s.buf == rest && |s.messages| == |ms|
            && forall i | 0 <= i < |ms| :: |s.messages[i]| >= OFP_HEADER_SIZE && Decode(s.messages[i]) == ms[i]
  {
    hide Split, Sane, Run, Serialize, Decode, Flatten, Received;
    forall m | m in ms ensures Framed(Serialize(m)) && Decode(Serialize(m)) == m { MessageBack(m); }
    SplitIsTheFraming(SerializeAll(ms), rest);
    LoopFrames(chunks);
  }
}
