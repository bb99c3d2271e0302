/** Length-prefixed framing over a byte stream that TCP may split anywhere. */
module TcpConnection {
  import opened Bytes
  import opened Keepalive

  // ── the stream as a whole ──────────────────────────────────────────────────

  /** A header together with the payload it announced; only a positive header announces one. */
  datatype Frame = Frame(header: int32, payload: bytes)

  /** The complete frames of a stream, and the state in which a connection waits for more. */
  datatype Parsed = Parsed(frames: seq<Frame>, rest: bytes, expected: int32)

  /** The reference: parse a whole stream at once. */
  function Parse(s: bytes): (p: Parsed)
    ensures Waiting(p.rest, p.expected)
    decreases |s|
  {
    if |s| < 4 then Parsed([], s, -1)
    else
      var n, body := Int32From(s[..4]), s[4..];
      if |body| < n then Parsed([], body, n)
      else
        var size := if n > 0 then n else 0;
        var p := Parse(body[size..]);
        Parsed([Frame(n, body[..size])] + p.frames, p.rest, p.expected)
  }

  /** A zero header is a ping; every other frame is emitted. */
  function Emitted(frames: seq<Frame>): seq<bytes> {
    if frames == [] then []
    else (if frames[0].header == 0 then [] else [frames[0].payload]) + Emitted(frames[1..])
  }

  /** The bytes that produce a frame, and a sequence of frames. */
  function FrameBytes(f: Frame): bytes {
    Int32Bytes(f.header) + f.payload
  }

  function Wire(frames: seq<Frame>): bytes {
    if frames == [] then [] else FrameBytes(frames[0]) + Wire(frames[1..])
  }

  /** The bytes a waiting connection has received but not yet turned into a frame. */
  function Unread(rest: bytes, expected: int32): bytes {
    if expected == -1 then rest else Int32Bytes(expected) + rest
  }

  /** The payload size a header stands for: none unless it is positive. */
  function Size(n: int32): nat {
    if n > 0 then n else 0
  }

  function Cons(f: Frame, p: Parsed): Parsed {
    Parsed([f] + p.frames, p.rest, p.expected)
  }

  /** Parsing a stream that starts with a header. */
  lemma ParseHeader(n: int32, body: bytes)
    ensures Parse(Int32Bytes(n) + body)
         == if |body| < n then Parsed([], body, n)
            else Cons(Frame(n, body[..Size(n)]), Parse(body[Size(n)..]))
  {
    hide FromBigEndian, BigEndian, Pow256;
    var s := Int32Bytes(n) + body;
    assert s[..4] == Int32Bytes(n) && s[4..] == body;
    Int32RoundTrip(n);
  }

  /** Parsing a stream that starts with a frame. */
  lemma ParseFrame(f: Frame, tail: bytes)
    requires |f.payload| == Size(f.header)
    ensures Parse(FrameBytes(f) + tail) == Cons(f, Parse(tail))
  {
    hide Parse, Int32Bytes;
    var body := f.payload + tail;
    assert body[..|f.payload|] == f.payload && body[|f.payload|..] == tail;
    assert FrameBytes(f) + tail == Int32Bytes(f.header) + body;
    ParseHeader(f.header, body);
  }

  /** A stream either starts with a frame or is still waiting, whole, for the rest of one. */
  lemma ParseCases(s: bytes) returns (f: Frame, tail: bytes)
    ensures Parse(s).frames == [] ==> Unread(Parse(s).rest, Parse(s).expected) == s
    ensures Parse(s).frames != [] ==>
      && s == FrameBytes(f) + tail && |tail| < |s| && |f.payload| == Size(f.header)
      && Parse(s) == Cons(f, Parse(tail))
  {
    f, tail := Frame(0, []), [];
    if |s| >= 4 {
      hide FromBigEndian, BigEndian, Pow256;
      var n, body := Int32From(s[..4]), s[4..];
      Int32FromRoundTrip(s[..4]);
      if |body| >= n {
        f, tail := Frame(n, body[..Size(n)]), body[Size(n)..];
      }
    }
  }

  /** Conservation: no byte of a stream is lost, duplicated or reordered by parsing. */
  lemma {:induction false} ParseConserves(s: bytes)
    ensures s == Wire(Parse(s).frames) + Unread(Parse(s).rest, Parse(s).expected)
    decreases |s|
  {
    var f, tail := ParseCases(s);
    hide Parse, FrameBytes, Unread;
    if Parse(s).frames != [] {
      ParseConserves(tail);
      assert ([f] + Parse(tail).frames)[1..] == Parse(tail).frames;
      assert Wire([f] + Parse(tail).frames) == FrameBytes(f) + Wire(Parse(tail).frames);
    }
  }

  /** Parsing a longer stream resumes where parsing its prefix stopped. */
  lemma {:induction false} ParseAppend(a: bytes, b: bytes)
    ensures var p := Parse(a);
            var q := Parse(Unread(p.rest, p.expected) + b);
            Parse(a + b) == Parsed(p.frames + q.frames, q.rest, q.expected)
    decreases |a|
  {
    var f, tail := ParseCases(a);
    hide Parse, FrameBytes, Unread, Size;
    var p := Parse(a);
    if p.frames != [] {
      ParseAppend(tail, b);
      ParseFrame(f, tail + b);
      assert a + b == FrameBytes(f) + (tail + b);
      var q := Parse(Unread(p.rest, p.expected) + b);
      assert [f] + Parse(tail).frames + q.frames == [f] + (Parse(tail).frames + q.frames);
    }
  }

  lemma {:induction false} EmittedAppend(f: seq<Frame>, g: seq<Frame>)
    ensures Emitted(f + g) == Emitted(f) + Emitted(g)
  {
    if f == [] {
      assert f + g == g;
    } else {
      assert (f + g)[1..] == f[1..] + g;
      EmittedAppend(f[1..], g);
    }
  }

  // ── the incremental loop ───────────────────────────────────────────────────

  /** `left(n)` and `remove(0, n)` of a QByteArray: a negative count takes nothing. */
  function Left(b: bytes, n: int32): bytes
    requires n <= |b|
  {
    if n < 0 then [] else b[..n]
  }

  function Removed(b: bytes, n: int32): bytes
    requires n <= |b|
  {
    if n < 0 then b else b[n..]
  }

  /** What one run of the read loop emits, and the buffer and expected size it leaves. */
  datatype Drained = Drained(emitted: seq<bytes>, buffer: bytes, expected: int32)

  function Drain(buffer: bytes, expected: int32): Drained
    decreases |buffer|, if expected == -1 then 0 else 1
  {
    if expected == -1 && |buffer| < 4 then Drained([], buffer, expected)
    else
      var n := if expected == -1 then Int32From(buffer[..4]) else expected;
      var body := if expected == -1 then buffer[4..] else buffer;
      if n == 0 then Drain(body, -1)
      else if |body| < n then Drained([], body, n)
      else
        var d := Drain(Removed(body, n), -1);
        Drained([Left(body, n)] + d.emitted, d.buffer, d.expected)
  }

  /** One iteration of the loop, from a header `n` and the bytes after it. */
  lemma DrainStep(buffer: bytes, expected: int32, n: int32, body: bytes)
    requires if expected == -1 then |buffer| >= 4 && n == Int32From(buffer[..4]) && body == buffer[4..]
             else n == expected && body == buffer
    ensures n == 0 ==> Drain(buffer, expected) == Drain(body, -1)
    ensures n != 0 && |body| < n ==> Drain(buffer, expected) == Drained([], body, n)
    ensures n != 0 && |body| >= n ==>
      var d := Drain(Removed(body, n), -1);
      Drain(buffer, expected) == Drained([Left(body, n)] + d.emitted, d.buffer, d.expected)
  {
    hide FromBigEndian, BigEndian, Pow256;
  }

  /** `whole` is what the loop yields overall when it has emitted `done` and `d` is still to come. */
  ghost predicate Continues(whole: Drained, done: seq<bytes>, d: Drained) {
    whole == Drained(done + d.emitted, d.buffer, d.expected)
  }

  lemma DrainWaits(buffer: bytes)
    requires |buffer| < 4
    ensures Drain(buffer, -1) == Drained([], buffer, -1)
  {
  }

  lemma DrainStops(whole: Drained, done: seq<bytes>, buffer: bytes, expected: int32)
    requires Continues(whole, done, Drained([], buffer, expected))
    ensures whole == Drained(done, buffer, expected)
  {
    assert done + [] == done;
  }

  lemma ContinueAfter(whole: Drained, done: seq<bytes>, data: bytes, d: Drained)
    requires Continues(whole, done, Drained([data] + d.emitted, d.buffer, d.expected))
    ensures Continues(whole, done + [data], d)
  {
    assert done + ([data] + d.emitted) == done + [data] + d.emitted;
  }

  predicate Waiting(buffer: bytes, expected: int32) {
    (expected == -1 && |buffer| < 4) || (expected > 0 && |buffer| < expected)
  }

  /** The loop agrees with the reference parser on the bytes it has not consumed. */
  lemma {:induction false} DrainIsParse(buffer: bytes, expected: int32)
    requires expected == -1 || expected > 0
    ensures var p := Parse(Unread(buffer, expected));
            Drain(buffer, expected) == Drained(Emitted(p.frames), p.rest, p.expected)
    decreases |buffer|
  {
    if expected == -1 && |buffer| < 4 { return; }
    hide FromBigEndian, BigEndian, Pow256;
    var n, body := expected, buffer;
    if expected == -1 {
      n, body := Int32From(buffer[..4]), buffer[4..];
      Int32FromRoundTrip(buffer[..4]);
      assert buffer == Int32Bytes(n) + body;
    }
    ParseHeader(n, body);
    hide Parse, Int32Bytes;
    if |body| >= n {
      DrainIsParse(body[Size(n)..], -1);
      var p := Parse(body[Size(n)..]);
      var f := Frame(n, body[..Size(n)]);
      assert ([f] + p.frames)[1..] == p.frames;
      assert n == 0 ==> body[Size(n)..] == body;
    }
  }

  function Concat(chunks: seq<bytes>): bytes {
    if chunks == [] then [] else Concat(chunks[..|chunks| - 1]) + chunks[|chunks| - 1]
  }

  /** A whole run: one read event per chunk, starting from a fresh connection. */
  function ReadAll(chunks: seq<bytes>): Drained {
    if chunks == [] then Drained([], [], -1)
    else
      var d := ReadAll(chunks[..|chunks| - 1]);
      var next := Drain(d.buffer + chunks[|chunks| - 1], d.expected);
      Drained(d.emitted + next.emitted, next.buffer, next.expected)
  }

  lemma UnreadAppend(rest: bytes, expected: int32, chunk: bytes)
    ensures Unread(rest + chunk, expected) == Unread(rest, expected) + chunk
  {
    assert Int32Bytes(expected) + (rest + chunk) == Int32Bytes(expected) + rest + chunk;
  }

  /** The state of a connection that has received `s`, and everything it has emitted. */
  function StateAfter(s: bytes): Drained {
    Drained(Emitted(Parse(s).frames), Parse(s).rest, Parse(s).expected)
  }

  /** One more chunk: the state reached on `s` moves to the one of `s + chunk`. */
  lemma DrainExtends(s: bytes, chunk: bytes)
    ensures var before, after := StateAfter(s), StateAfter(s + chunk);
            var d := Drain(before.buffer + chunk, before.expected);
            after == Drained(before.emitted + d.emitted, d.buffer, d.expected) && Waiting(after.buffer, after.expected)
  {
    var p := Parse(s);
    ParseAppend(s, chunk);
    DrainIsParse(p.rest + chunk, p.expected);
    UnreadAppend(p.rest, p.expected, chunk);
    EmittedAppend(p.frames, Parse(Unread(p.rest, p.expected) + chunk).frames);
    hide Parse, Drain, Emitted, Unread;
  }

  /** Chunking independence: the splits a stream arrives in never show. */
  lemma {:induction false} ChunkingIndependence(chunks: seq<bytes>)
    ensures ReadAll(chunks) == StateAfter(Concat(chunks))
  {
    if chunks != [] {
      ChunkingIndependence(chunks[..|chunks| - 1]);
      DrainExtends(Concat(chunks[..|chunks| - 1]), chunks[|chunks| - 1]);
    }
  }

  // ── the sender ─────────────────────────────────────────────────────────────

  /** The cast of a size to qint32. */
  function ToInt32(n: nat): int32 {
    (n + 0x8000_0000) % 0x1_0000_0000 - 0x8000_0000
  }

  function MessageFrame(data: bytes): Frame {
    Frame(ToInt32(|data|), data)
  }

  /** What a sender writes: keep-alive pings and messages. */
  datatype Item = Ping | Message(data: bytes)

  function ItemFrame(item: Item): Frame {
    match item
    case Ping => Frame(0, [])
    case Message(data) => MessageFrame(data)
  }

  function StreamOf(items: seq<Item>): bytes {
    if items == [] then [] else FrameBytes(ItemFrame(items[0])) + StreamOf(items[1..])
  }

  /** The messages among the items; an empty message is indistinguishable from a ping. */
  function Messages(items: seq<Item>): seq<bytes> {
    if items == [] then []
    else (if items[0].Message? && items[0].data != [] then [items[0].data] else []) + Messages(items[1..])
  }

  lemma SmallItemFits(item: Item)
    requires item.Message? ==> |item.data| < 0x8000_0000
    ensures var f := ItemFrame(item);
            && |f.payload| == Size(f.header) && (f.header == 0 <==> f.payload == [])
            && f.payload == if item.Message? then item.data else []
  {
  }

  lemma EmittedFirst(f: Frame, frames: seq<Frame>)
    ensures Emitted([f] + frames) == (if f.header == 0 then [] else [f.payload]) + Emitted(frames)
  {
    assert ([f] + frames)[1..] == frames;
  }

  /** Framing round trip, with pings interleaved anywhere and the stream split anywhere. */
  lemma {:induction false} FramingRoundTrip(items: seq<Item>)
    requires forall i :: 0 <= i < |items| && items[i].Message? ==> |items[i].data| < 0x8000_0000
    ensures StateAfter(StreamOf(items)) == Drained(Messages(items), [], -1)
  {
    if items != [] {
      hide Parse, FrameBytes, Size, Emitted, ItemFrame;
      FramingRoundTrip(items[1..]);
      var f, tail := ItemFrame(items[0]), StreamOf(items[1..]);
      SmallItemFits(items[0]);
      ParseFrame(f, tail);
      EmittedFirst(f, Parse(tail).frames);
    }
  }

  lemma FramingOverChunks(items: seq<Item>, chunks: seq<bytes>)
    requires forall i :: 0 <= i < |items| && items[i].Message? ==> |items[i].data| < 0x8000_0000
    requires Concat(chunks) == StreamOf(items)
    ensures ReadAll(chunks) == Drained(Messages(items), [], -1)
  {
    ChunkingIndependence(chunks);
    FramingRoundTrip(items);
  }

  // ── the connection object ──────────────────────────────────────────────────

  class Connection {
    var connected: bool
    var buffer: bytes
    var expectedSize: int32
    var lastActivity: int
    var written: bytes
    ghost var received: bytes
    ghost var delivered: seq<bytes>

    /** The state is a function of the bytes received so far: chunk boundaries leave no trace. */
    ghost predicate Valid()
      reads this
    {
      Drained(delivered, buffer, expectedSize) == StateAfter(received)
    }

    constructor (now: int)
      ensures Valid() && received == [] && written == [] && lastActivity == now && connected
    {
      connected, buffer, expectedSize, lastActivity := true, [], -1, now;
      written, received, delivered := [], [], [];
    }

    method OnReadyRead(chunk: bytes, now: int) returns (emitted: seq<bytes>)
      requires Valid()
      modifies `buffer, `expectedSize, `lastActivity, `received, `delivered
      ensures Valid() && received == old(received) + chunk && delivered == old(delivered) + emitted
      ensures Drained(emitted, buffer, expectedSize) == Drain(old(buffer) + chunk, old(expectedSize))
      ensures lastActivity == now
    {
      DrainExtends(received, chunk);
      hide Drain, Parse, Emitted, FromBigEndian, Pow256;
      assert buffer == Parse(received).rest;
      lastActivity := now;
      buffer := buffer + chunk;
      received := received + chunk;
      emitted := [];
      ghost var whole := Drain(buffer, expectedSize);
      while true
        invariant expectedSize == -1 || expectedSize > 0
        invariant Continues(whole, emitted, Drain(buffer, expectedSize))
        modifies `buffer, `expectedSize
        decreases |buffer|
      {
        ghost var before, size := buffer, expectedSize;
        if expectedSize == -1 {
          if |buffer| < 4 {
            DrainWaits(buffer);
            DrainStops(whole, emitted, buffer, expectedSize);
            break;
          }
          expectedSize := Int32From(buffer[..4]);
          buffer := buffer[4..];
        }
        DrainStep(before, size, expectedSize, buffer);
        if expectedSize == 0 {
          expectedSize := -1;
          continue;
        }
        if |buffer| < expectedSize {
          DrainStops(whole, emitted, buffer, expectedSize);
          break;
        }
        var data := Left(buffer, expectedSize);
        buffer := Removed(buffer, expectedSize);
        expectedSize := -1;
        ContinueAfter(whole, emitted, data, Drain(buffer, -1));
        emitted := emitted + [data];
      }
      delivered := delivered + emitted;
    }

    method SendMessage(data: bytes)
      requires Valid()
      modifies this`written
      ensures Valid()
      ensures written == old(written) + if connected then FrameBytes(MessageFrame(data)) else []
    {
      if !connected { return; }
      written := written + (Int32Bytes(ToInt32(|data|)) + data);
    }

    /** The two-second timer: close a silent connection, otherwise ping. */
    method CheckPing(now: int)
      requires Valid()
      modifies this`connected, this`written
      ensures Valid()
      ensures Line(connected, lastActivity) == Beaten(Line(old(connected), lastActivity), Tick(now))
      ensures written == old(written) + if connected then FrameBytes(ItemFrame(Ping)) else []
    {
      if now - lastActivity > TIMEOUT_MS {
        connected := false;
        return;
      }
      if connected {
        written := written + Int32Bytes(0);
      }
    }
  }
}
