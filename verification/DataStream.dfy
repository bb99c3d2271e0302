/**
 * The QDataStream encodings of the client: the packet that is encrypted, the chat payload and the
 * read-receipt payload inside it. Readers are total: a short read consumes what is left, yields the
 * default value and marks the stream, as QDataStream does.
 */
module DataStream {
  import opened Bytes

  /** The unread bytes, and whether `status()` is still Ok. */
  datatype Reader = Reader(rest: bytes, ok: bool)

  const NULL_SIZE := 0xFFFF_FFFF

  function ReadNat(r: Reader, k: nat): (nat, Reader) {
    if k <= |r.rest| then (FromBigEndian(r.rest[..k]), Reader(r.rest[k..], r.ok))
    else (0, Reader([], false))
  }

  function ReadInt32(r: Reader): (int32, Reader) {
    if 4 <= |r.rest| then (Int32From(r.rest[..4]), Reader(r.rest[4..], r.ok))
    else (0, Reader([], false))
  }

  function ReadInt64(r: Reader): (int64, Reader) {
    if 8 <= |r.rest| then (Int64From(r.rest[..8]), Reader(r.rest[8..], r.ok))
    else (0, Reader([], false))
  }

  // ── QByteArray and QString ─────────────────────────────────────────────────

  function EncodeBytes(b: bytes): bytes {
    BigEndian(|b|, 4) + b
  }

  function ReadBytes(r: Reader): (bytes, Reader) {
    var (size, r1) := ReadNat(r, 4);
    if size == NULL_SIZE then ([], r1)
    else if size <= |r1.rest| then (r1.rest[..size], Reader(r1.rest[size..], r1.ok))
    else ([], Reader([], false))
  }

  function Utf16(s: QString): (b: bytes)
    ensures |b| == 2 * |s|
  {
    if s == [] then [] else Utf16(s[..|s| - 1]) + [s[|s| - 1] / 256, s[|s| - 1] % 256]
  }

  function FromUtf16(b: bytes): (s: QString)
    requires |b| % 2 == 0
  {
    if b == [] then []
    else
      var high: int, low: int := b[|b| - 2], b[|b| - 1];
      FromUtf16(b[..|b| - 2]) + [256 * high + low]
  }

  lemma {:induction false} Utf16RoundTrip(s: QString)
    ensures FromUtf16(Utf16(s)) == s
  {
    if s != [] {
      Utf16RoundTrip(s[..|s| - 1]);
      var b := Utf16(s);
      assert b[..|b| - 2] == Utf16(s[..|s| - 1]);
      assert s == s[..|s| - 1] + [s[|s| - 1]];
    }
  }

  function EncodeString(s: QString): bytes {
    BigEndian(2 * |s|, 4) + Utf16(s)
  }

  function ReadString(r: Reader): (QString, Reader) {
    var (size, r1) := ReadNat(r, 4);
    if size == NULL_SIZE then ([], r1)
    else if size % 2 != 0 then ([], Reader(r1.rest, false))
    else if size <= |r1.rest| then (FromUtf16(r1.rest[..size]), Reader(r1.rest[size..], r1.ok))
    else ([], Reader([], false))
  }

  lemma ReadsNat(n: nat, k: nat, rest: bytes, ok: bool)
    requires n < Pow256(k)
    ensures ReadNat(Reader(BigEndian(n, k) + rest, ok), k) == (n, Reader(rest, ok))
  {
    BigEndianRoundTrip(n, k);
    assert (BigEndian(n, k) + rest)[..k] == BigEndian(n, k);
    assert (BigEndian(n, k) + rest)[k..] == rest;
  }

  lemma ReadsInt32(x: int32, rest: bytes, ok: bool)
    ensures ReadInt32(Reader(Int32Bytes(x) + rest, ok)) == (x, Reader(rest, ok))
  {
    Int32RoundTrip(x);
    assert (Int32Bytes(x) + rest)[..4] == Int32Bytes(x);
    assert (Int32Bytes(x) + rest)[4..] == rest;
  }

  lemma ReadsInt64(x: int64, rest: bytes, ok: bool)
    ensures ReadInt64(Reader(Int64Bytes(x) + rest, ok)) == (x, Reader(rest, ok))
  {
    Int64RoundTrip(x);
    assert (Int64Bytes(x) + rest)[..8] == Int64Bytes(x);
    assert (Int64Bytes(x) + rest)[8..] == rest;
  }

  lemma ReadsBytes(b: bytes, rest: bytes, ok: bool)
    requires |b| < NULL_SIZE
    ensures ReadBytes(Reader(EncodeBytes(b) + rest, ok)) == (b, Reader(rest, ok))
  {
    PowersOf256();
    ReadsNat(|b|, 4, b + rest, ok);
    assert EncodeBytes(b) + rest == BigEndian(|b|, 4) + (b + rest);
    assert (b + rest)[..|b|] == b && (b + rest)[|b|..] == rest;
  }

  lemma ReadsString(s: QString, rest: bytes, ok: bool)
    requires 2 * |s| < NULL_SIZE
    ensures ReadString(Reader(EncodeString(s) + rest, ok)) == (s, Reader(rest, ok))
  {
    var units := Utf16(s);
    Utf16RoundTrip(s);
    PowersOf256();
    hide Utf16, FromUtf16, BigEndian, FromBigEndian, Pow256;
    ReadsNat(2 * |s|, 4, units + rest, ok);
    assert EncodeString(s) + rest == BigEndian(2 * |s|, 4) + (units + rest);
    assert (units + rest)[..2 * |s|] == units && (units + rest)[2 * |s|..] == rest;
  }

  /** The marker of a null string reads as the empty one. */
  lemma ReadsNullString(rest: bytes, ok: bool)
    ensures ReadString(Reader(BigEndian(NULL_SIZE, 4) + rest, ok)) == ([], Reader(rest, ok))
  {
    PowersOf256();
    ReadsNat(NULL_SIZE, 4, rest, ok);
  }

  // ── timestamps ─────────────────────────────────────────────────────────────

  /** Milliseconds since the epoch, in UTC. */
  type Msecs = int64

  const MS_PER_DAY := 86_400_000
  const EPOCH_JULIAN_DAY := 2_440_588
  const UTC_SPEC: byte := 1

  /** `toSecsSinceEpoch`: division that truncates toward zero. */
  function Secs(ms: Msecs): int64 {
    var n: int := ms;
    if n >= 0 then n / 1000 else -(-n / 1000)
  }

  lemma SecsMonotone(a: Msecs, b: Msecs)
    requires a <= b
    ensures Secs(a) <= Secs(b)
  {
  }

  /** A UTC QDateTime: Julian day, millisecond of the day, time spec. */
  function EncodeTime(ms: Msecs): bytes {
    Int64Bytes(ms / MS_PER_DAY + EPOCH_JULIAN_DAY) + BigEndian(ms % MS_PER_DAY, 4) + [UTC_SPEC]
  }

  function ReadTime(r: Reader): (Option<Msecs>, Reader) {
    var (day, r1) := ReadInt64(r);
    var (time, r2) := ReadNat(r1, 4);
    var (spec, r3) := ReadNat(r2, 1);
    var ms := (day - EPOCH_JULIAN_DAY) * MS_PER_DAY + time;
    if spec == UTC_SPEC && time < MS_PER_DAY && -0x8000_0000_0000_0000 <= ms < 0x8000_0000_0000_0000
    then (Some(ms), r3) else (None, r3)
  }

  lemma ReadsTime(ms: Msecs, rest: bytes, ok: bool)
    ensures ReadTime(Reader(EncodeTime(ms) + rest, ok)) == (Some(ms), Reader(rest, ok))
  {
    PowersOf256();
    assert BigEndian(UTC_SPEC, 1) == [UTC_SPEC];
    hide BigEndian, FromBigEndian, Pow256, Int64Bytes, ReadInt64, ReadNat;
    var day := ms / MS_PER_DAY + EPOCH_JULIAN_DAY;
    var time := ms % MS_PER_DAY;
    var tail := [UTC_SPEC] + rest;
    ReadsInt64(day, BigEndian(time, 4) + tail, ok);
    ReadsNat(time, 4, tail, ok);
    ReadsNat(UTC_SPEC, 1, rest, ok);
    assert EncodeTime(ms) + rest == Int64Bytes(day) + (BigEndian(time, 4) + tail);
  }

  // ── packets ────────────────────────────────────────────────────────────────

  const READ_RECEIPT: byte := 4
  const CHAT_MESSAGE: byte := 5

  datatype Packet = Packet(kind: byte, timestamp: Msecs, data: bytes)

  function Serialize(p: Packet): (b: bytes)
    ensures b != []
  {
    [p.kind] + EncodeTime(p.timestamp) + EncodeBytes(p.data)
  }

  /** None is a packet whose type the source leaves unset, or whose timestamp is not a UTC instant. */
  function Deserialize(b: bytes): Option<Packet> {
    var (kind, r1) := ReadNat(Reader(b, true), 1);
    var (time, r2) := ReadTime(r1);
    var (data, r3) := ReadBytes(r2);
    if r3.ok && time.Some? && kind < 256 then Some(Packet(kind, time.value, data)) else None
  }

  /** Deserialising undoes serialising, for every packet whose data has a legal size. */
  lemma PacketRoundTrip(p: Packet)
    requires |p.data| < NULL_SIZE
    ensures Deserialize(Serialize(p)) == Some(p)
  {
    PowersOf256();
    var b := Serialize(p);
    ReadsNat(p.kind, 1, EncodeTime(p.timestamp) + EncodeBytes(p.data), true);
    assert BigEndian(p.kind, 1) == [p.kind];
    assert b == [p.kind] + (EncodeTime(p.timestamp) + EncodeBytes(p.data));
    ReadsTime(p.timestamp, EncodeBytes(p.data), true);
    ReadsBytes(p.data, [], true);
    assert EncodeBytes(p.data) + [] == EncodeBytes(p.data);
  }

  /** What the ChatMessage handler ends up with. */
  datatype Chat = Chat(sender: QString, text: QString, replyId: int32, replyText: QString, replySender: QString)

  function EncodeChat(c: Chat): bytes {
    EncodeString(c.sender) + EncodeString(c.text) + Int32Bytes(c.replyId)
      + EncodeString(c.replyText) + EncodeString(c.replySender)
  }

  function DecodeChat(data: bytes, senderHint: QString): Chat {
    var (sender, r1) := ReadString(Reader(data, true));
    var (text, r2) := ReadString(r1);
    var (replyId, r3) := if r2.rest == [] then (-1, r2) else ReadInt32(r2);
    var (replyText, r4) := if r2.rest == [] then ([], r3) else ReadString(r3);
    var (replySender, r5) := if r2.rest == [] then ([], r4) else ReadString(r4);
    Chat(if !r5.ok || sender == [] then senderHint else sender, text, replyId, replyText, replySender)
  }

  /** Every string of the payload has a size that fits its 32-bit prefix. */
  predicate Fits(c: Chat) {
    2 * |c.sender| < NULL_SIZE && 2 * |c.text| < NULL_SIZE
    && 2 * |c.replyText| < NULL_SIZE && 2 * |c.replySender| < NULL_SIZE
  }

  /** The payload decoder undoes the encoder, whatever hint the envelope gives. */
  lemma ChatRoundTrip(c: Chat, hint: QString)
    requires Fits(c) && c.sender != []
    ensures DecodeChat(EncodeChat(c), hint) == c
  {
    var tail := Int32Bytes(c.replyId) + (EncodeString(c.replyText) + EncodeString(c.replySender));
    assert EncodeChat(c) == EncodeString(c.sender) + (EncodeString(c.text) + tail);
    ReadsString(c.sender, EncodeString(c.text) + tail, true);
    ReadsString(c.text, tail, true);
    ReadsInt32(c.replyId, EncodeString(c.replyText) + EncodeString(c.replySender), true);
    ReadsString(c.replyText, EncodeString(c.replySender), true);
    ReadsString(c.replySender, [], true);
    assert EncodeString(c.replySender) + [] == EncodeString(c.replySender);
  }

  /** A payload without the optional tail yields the default reply fields. */
  lemma ChatWithoutReply(sender: QString, text: QString, hint: QString)
    requires 2 * |sender| < NULL_SIZE && 2 * |text| < NULL_SIZE
    ensures DecodeChat(EncodeString(sender) + EncodeString(text), hint)
         == Chat(if sender == [] then hint else sender, text, -1, [], [])
  {
    ReadsString(sender, EncodeString(text), true);
    ReadsString(text, [], true);
    assert EncodeString(text) + [] == EncodeString(text);
  }

  datatype Receipt = Receipt(sender: QString, upTo: int64)

  function EncodeReceipt(r: Receipt): bytes {
    EncodeString(r.sender) + Int64Bytes(r.upTo)
  }

  function DecodeReceipt(data: bytes, senderHint: QString): Receipt {
    var (sender, r1) := ReadString(Reader(data, true));
    var (upTo, r2) := ReadInt64(r1);
    Receipt(if sender == [] then senderHint else sender, upTo)
  }

  lemma ReceiptRoundTrip(r: Receipt, hint: QString)
    requires 2 * |r.sender| < NULL_SIZE && r.sender != []
    ensures DecodeReceipt(EncodeReceipt(r), hint) == r
  {
    ReadsString(r.sender, Int64Bytes(r.upTo), true);
    ReadsInt64(r.upTo, [], true);
    assert Int64Bytes(r.upTo) + [] == Int64Bytes(r.upTo);
  }
}
