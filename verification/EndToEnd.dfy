/** Two clients: a message sent by one reaches the other's handler, and the receipt comes back. */
module EndToEnd {
  import opened Bytes
  import opened Platform
  import opened DataStream
  import opened Crypto
  import opened Protocol
  import opened LocalDb
  import opened Network
  import T = TcpConnection
  import opened Core
  import opened MailInvariants
  import opened CoreInvariants
  import opened CoreRuns
  import opened KeyRuns

  // ── envelopes ──────────────────────────────────────────────────────────────

  /** A nickname both envelopes can carry. */
  predicate Nameable(nick: QString) {
    nick != [] && WellFormed(nick) && BAR !in nick
  }

  ghost predicate Nonces(me: Me) {
    forall i: nat :: |me.nonces(i)| == NONCE_BYTES
  }

  lemma LawsGive(p: Platform)
    requires Laws(p)
    ensures KxLaw(p) && BoxLaw(p) && Utf8Law(p)
  {
  }

  lemma NameSurvives(p: Platform, nick: QString)
    requires Utf8Law(p) && Nameable(nick)
    ensures p.fromUtf8(p.toUtf8(nick)) == nick && p.toUtf8(nick) != [] && BAR !in p.toUtf8(nick)
  {
  }

  lemma PeerEnvelopeIs(p: Platform, me: Me, encrypted: bytes)
    requires Utf8Law(p)
    ensures PeerEnvelope(p, me, encrypted) == Joined<byte>(p.toUtf8(me.nick), BAR, encrypted)
  {
    var bar: bytes := [BAR];
    assert p.toUtf8(me.nick + bar) == p.toUtf8(me.nick) + bar;
  }

  /** The receiver recovers the sender's nickname and plaintext from a peer envelope. */
  lemma PeerEnvelopeOpens(p: Platform, me: Me, sender: Session, c: Core, plain: bytes, nonce: bytes)
    requires Laws(p) && Nameable(me.nick) && plain != [] && |nonce| == NONCE_BYTES
    requires Linked(sender, SessionOf(c, me.nick))
    ensures Read(p, c, PeerEnvelope(p, me, Encrypt(p, sender, plain, nonce))) == Plain(me.nick, plain)
    ensures PeerEnvelope(p, me, Encrypt(p, sender, plain, nonce)) != []
  {
    hide PeerEnvelope, Joined, Encrypt, Decrypt, SessionOf, IndexOf, KxLaw, BoxLaw, Utf8Law, Nameable;
    var encrypted, name := Encrypt(p, sender, plain, nonce), p.toUtf8(me.nick);
    NameSurvives(p, me.nick);
    PeerEnvelopeIs(p, me, encrypted);
    FirstSeparator<byte>(name, BAR, encrypted);
    DecryptUndoesEncrypt(p, sender, SessionOf(c, me.nick), plain, nonce);
  }

  lemma RelayEnvelopeIs(p: Platform, me: Me, encrypted: bytes)
    requires Utf8Law(p)
    ensures RelayEnvelope(p, me, encrypted)
         == Joined<byte>(p.toUtf8(me.nick), BAR, Joined<byte>(ToHex(me.pub), BAR, encrypted))
  {
    var bar: bytes, hex := [BAR], ToHex(me.pub);
    var tail := bar + hex + bar;
    assert IsAscii(tail);
    assert Joined<unit>(me.nick, BAR, hex + [BAR]) == me.nick + tail;
    assert p.toUtf8(me.nick + tail) == p.toUtf8(me.nick) + tail;
    hide ToHex, Utf8Law;
  }

  /** Splitting at the first two bars undoes the relay envelope, whatever bytes the ciphertext holds. */
  lemma RelayEnvelopeParses(p: Platform, me: Me, encrypted: bytes)
    requires Utf8Law(p) && Nameable(me.nick)
    ensures ParseRelay(p, RelayEnvelope(p, me, encrypted)) == Some(Relay(me.nick, me.pub, encrypted))
    ensures RelayEnvelope(p, me, encrypted) != []
  {
    hide RelayEnvelope, Joined, ToHex, FromHex, HexDigits, IndexOf, Utf8Law, Nameable;
    var name, hex := p.toUtf8(me.nick), ToHex(me.pub);
    NameSurvives(p, me.nick);
    RelayEnvelopeIs(p, me, encrypted);
    HexRoundTrip(me.pub);
    TwoSeparators<byte>(name, hex, BAR, encrypted, RelayEnvelope(p, me, encrypted));
  }

  // ── packets ────────────────────────────────────────────────────────────────

  lemma ChatFits(chat: Chat)
    requires |EncodeChat(chat)| < NULL_SIZE
    ensures Fits(chat)
  {
    hide Utf16, BigEndian;
  }

  /** What the ChatMessage handler does with a message. */
  function Delivered(p: Platform, c: Core, chat: Chat, at: Msecs, now: Msecs): Core {
    ReceiptSent(p, ChatReceived(c, chat, at), chat.sender, Secs(at), now)
  }

  lemma MessageHandled(p: Platform, c: Core, chat: Chat, at: Msecs, hint: QString, now: Msecs)
    requires |EncodeChat(chat)| < NULL_SIZE && chat.sender != []
    ensures PlainHandled(p, c, MessageBytes(chat, at), hint, now) == Delivered(p, c, chat, at, now)
  {
    hide Serialize, Deserialize, EncodeChat, DecodeChat, ReceiptSent, ChatReceived;
    ChatFits(chat);
    ChatRoundTrip(chat, hint);
    PacketRoundTrip(Packet(CHAT_MESSAGE, at, EncodeChat(chat)));
  }

  function ReceiptBytes(r: Receipt, now: Msecs): (b: bytes)
    ensures b != []
  {
    Serialize(Packet(READ_RECEIPT, now, EncodeReceipt(r)))
  }

  lemma ReceiptSize(r: Receipt)
    ensures |EncodeReceipt(r)| == 2 * |r.sender| + 12
  {
  }

  lemma ReceiptHandled(p: Platform, c: Core, r: Receipt, at: Msecs, hint: QString, now: Msecs)
    requires 2 * |r.sender| + 12 < NULL_SIZE && r.sender != []
    ensures PlainHandled(p, c, ReceiptBytes(r, at), hint, now) == ReceiptReceived(c, r)
  {
    hide Serialize, Deserialize, EncodeReceipt, DecodeReceipt, ReceiptReceived;
    ReceiptRoundTrip(r, hint);
    ReceiptSize(r);
    PacketRoundTrip(Packet(READ_RECEIPT, at, EncodeReceipt(r)));
  }

  // ── delivery over a peer connection ────────────────────────────────────────

  /** The blob a direct message is broadcast as. */
  function DirectBlob(p: Platform, c: Core, peer: QString, plain: bytes): bytes {
    PeerEnvelope(p, c.me, Encrypt(p, SessionOf(c, peer), plain, c.me.nonces(c.drawn)))
  }

  function RelayBlob(p: Platform, c: Core, peer: QString, plain: bytes): bytes {
    RelayEnvelope(p, c.me, Encrypt(p, SessionOf(c, peer), plain, c.me.nonces(c.drawn)))
  }

  /** What changes when a message takes each route: one row is added, and one packet goes to one place. */
  ghost predicate HandedOver(p: Platform, a: Core, b: Core, peer: QString, sent: Chat, at: Msecs) {
    var id, plain := FromMessage(a.mail.db.nextMessage), MessageBytes(sent, at);
    var status := if RouteTo(a, peer) == Direct then MsgSent else MsgPending;
    && b.mail.db.messages == a.mail.db.messages + [NewRow(id.id, peer, sent, at, true).(status := status)]
    && match RouteTo(a, peer)
       case Queued =>
         (b.mail.out == a.mail.out && b.mail.relayIds == a.mail.relayIds && b.net == a.net
          && b.mail.db.outbox == a.mail.db.outbox + [OutRow(a.mail.db.nextOut, peer, plain)])
       case Relayed =>
         (b.mail.out == a.mail.out + [ToServer(Store(peer, RelayBlob(p, a, peer, plain)), id)]
          && b.mail.relayIds == a.mail.relayIds + [id.id] && b.net == a.net && b.mail.db.outbox == a.mail.db.outbox)
       case Direct =>
         (b.mail.out == a.mail.out + [ToPeers(DirectBlob(p, a, peer, plain), id)] && b.mail.relayIds == a.mail.relayIds
          && b.net == DataSent(a.net, DirectBlob(p, a, peer, plain)) && b.mail.db.outbox == a.mail.db.outbox)
  }

  /** `send_message` hands its packet to exactly one of outbox, STORE queue and peer connections. */
  lemma SendHandsOver(p: Platform, a: Core, peer: QString, chat: Chat, now: Msecs)
    requires !Refused(a, peer, chat.text) && a.mail.db.ready && Numbered(a.mail.db)
    ensures HandedOver(p, a, SendMessage(p, a, peer, chat, now), peer, chat.(sender := a.me.nick), now)
  {
    hide Encrypt, RelayEnvelope, PeerEnvelope, MessageBytes, RelaySet, NewRow, SetStatus, DataSent, Numbered;
    var sent := chat.(sender := a.me.nick);
    var a1 := MessageSaved(a, peer, sent, now);
    assert RouteTo(a1, peer) == RouteTo(a, peer) && SessionOf(a1, peer) == SessionOf(a, peer);
    assert SessionOf(CryptoFor(a1, peer), peer) == SessionOf(a, peer);
    StatusOfNew(a.mail.db, NewRow(a.mail.db.nextMessage, peer, sent, now, true), MsgPending);
    StatusOfNew(a.mail.db, NewRow(a.mail.db.nextMessage, peer, sent, now, true), MsgSent);
    assert NewRow(a.mail.db.nextMessage, peer, sent, now, true).id == a.mail.db.nextMessage by {
      NewRowId(a.mail.db.nextMessage, peer, sent, now);
    }
  }

  lemma NewRowId(id: int, peer: QString, chat: Chat, at: Msecs)
    ensures NewRow(id, peer, chat, at, true).id == id
  {
  }

  lemma StatusOfNew(db: Db, row: Row, status: Status)
    requires Numbered(db)
    ensures row.id == db.nextMessage ==>
      SetStatus(db.messages + [row], row.id, status) == db.messages + [row.(status := status)]
  {
    hide Ordered;
  }

  /** A frame sent among others, and split anywhere, is emitted whole. */
  lemma FrameArrives(before: seq<T.Item>, data: bytes, after: seq<T.Item>, chunks: seq<bytes>)
    requires 0 < |data| < 0x8000_0000
    requires forall item :: item in before + after && item.Message? ==> |item.data| < 0x8000_0000
    requires T.Concat(chunks) == T.StreamOf(before + [T.Message(data)] + after)
    ensures T.ReadAll(chunks).emitted == T.Messages(before) + [data] + T.Messages(after)
  {
    hide T.StreamOf, T.ReadAll, T.Concat, T.Messages;
    var one := [T.Message(data)];
    SmallItems(before, data, after);
    T.FramingOverChunks(before + one + after, chunks);
    MessagesAppend(before + one, after);
    MessagesAppend(before, one);
    OneMessage(data);
  }

  lemma OneMessage(data: bytes)
    requires data != []
    ensures T.Messages([T.Message(data)]) == [data]
  {
  }

  lemma SmallItems(before: seq<T.Item>, data: bytes, after: seq<T.Item>)
    requires |data| < 0x8000_0000
    requires forall item :: item in before + after && item.Message? ==> |item.data| < 0x8000_0000
    ensures var items := before + [T.Message(data)] + after;
            forall i :: 0 <= i < |items| && items[i].Message? ==> |items[i].data| < 0x8000_0000
  {
    var items := before + [T.Message(data)] + after;
    forall i | 0 <= i < |items| && items[i].Message? ensures |items[i].data| < 0x8000_0000 {
      assert items[i] in before + after || items[i] == T.Message(data);
    }
  }

  lemma {:induction false} MessagesAppend(a: seq<T.Item>, b: seq<T.Item>)
    ensures T.Messages(a + b) == T.Messages(a) + T.Messages(b)
  {
    if a == [] {
      assert a + b == b;
    } else {
      assert (a + b)[1..] == a[1..] + b;
      MessagesAppend(a[1..], b);
    }
  }

  /** The receiver's state when its handler runs on a blob read at once. */
  function PeerReading(p: Platform, c: Core, blob: bytes): Core {
    SenderMet(p, c, blob).(inbox := c.inbox.(
      arrived := c.inbox.arrived + [blob], consumed := c.inbox.consumed + {|c.inbox.arrived|}))
  }

  /** The blob of a direct message reaches the handler with what was sent. */
  lemma DirectHandled(p: Platform, a: Core, b: Core, sent: Chat, at: Msecs, now: Msecs)
    requires Laws(p) && Nameable(a.me.nick) && Nonces(a.me) && sent.sender == a.me.nick
    requires |EncodeChat(sent)| < NULL_SIZE
    requires Linked(SessionOf(a, b.me.nick), SessionOf(b, a.me.nick))
    ensures var blob := DirectBlob(p, a, b.me.nick, MessageBytes(sent, at));
            DataReceived(p, b, blob, now) == Delivered(p, PeerReading(p, b, blob), sent, at, now)
  {
    hide MessageBytes, Encrypt, PeerEnvelope, Delivered, PlainHandled, Read, SenderMet, Laws, EncodeChat, Linked,
      Nameable, Nonces;
    var plain := MessageBytes(sent, at);
    NonceAt(a.me, a.drawn);
    NameNonEmpty(a.me.nick);
    PeerEnvelopeOpens(p, a.me, SessionOf(a, b.me.nick), b, plain, a.me.nonces(a.drawn));
    MessageHandled(p, PeerReading(p, b, DirectBlob(p, a, b.me.nick, plain)), sent, at, a.me.nick, now);
  }

  /**
   * End to end, directly: whatever else travels on the connection and however TCP splits it, the blob
   * that `send_message` broadcast is emitted, and the receiver's handler is called with the sender,
   * text, reply fields and timestamp that were sent.
   */
  lemma DirectDelivery(p: Platform, a: Core, b: Core, chat: Chat, at: Msecs, now: Msecs,
                       before: seq<T.Item>, after: seq<T.Item>, chunks: seq<bytes>)
    requires Laws(p) && Nameable(a.me.nick) && Nonces(a.me) && a.mail.db.ready && Numbered(a.mail.db)
    requires !Refused(a, b.me.nick, chat.text) && RouteTo(a, b.me.nick) == Direct
    requires Linked(SessionOf(a, b.me.nick), SessionOf(b, a.me.nick))
    requires var sent := chat.(sender := a.me.nick);
             var blob := DirectBlob(p, a, b.me.nick, MessageBytes(sent, at));
             && |EncodeChat(sent)| < NULL_SIZE && |blob| < 0x8000_0000
             && (forall item :: item in before + after && item.Message? ==> |item.data| < 0x8000_0000)
             && T.Concat(chunks) == T.StreamOf(before + [T.Message(blob)] + after)
    ensures var sent := chat.(sender := a.me.nick);
            var blob := DirectBlob(p, a, b.me.nick, MessageBytes(sent, at));
            && SendMessage(p, a, b.me.nick, chat, at).net == DataSent(a.net, blob)
            && T.ReadAll(chunks).emitted == T.Messages(before) + [blob] + T.Messages(after)
            && DataReceived(p, b, blob, now) == Delivered(p, PeerReading(p, b, blob), sent, at, now)
  {
    hide MessageBytes, Encrypt, PeerEnvelope, Delivered, PlainHandled, Read, SenderMet, SendMessage, DataSent,
      T.StreamOf, T.Messages, Laws, EncodeChat;
    var sent := chat.(sender := a.me.nick);
    var plain := MessageBytes(sent, at);
    SendHandsOver(p, a, b.me.nick, chat, at);
    var blob := DirectBlob(p, a, b.me.nick, plain);
    DirectHandled(p, a, b, sent, at, now);
    assert blob != [] by { PeerEnvelopeOpens(p, a.me, SessionOf(a, b.me.nick), b, plain, a.me.nonces(a.drawn)); }
    FrameArrives(before, blob, after, chunks);
  }

  // ── delivery through the relay ─────────────────────────────────────────────

  ghost predicate OwnsKey(p: Platform, me: Me) {
    me.pub == p.publicOf(me.sec)
  }

  lemma KeyedIsLinked(p: Platform, a: Core, b: Core)
    requires KxLaw(p) && OwnsKey(p, a.me) && OwnsKey(p, b.me) && a.me.pub != b.me.pub
    requires SessionOf(a, b.me.nick).ready && AgreedOrNone(p, a, b.me.nick, b.me.pub)
    requires AgreedOrNone(p, b, a.me.nick, a.me.pub)
    ensures var c := KeyedIfNeeded(p, CryptoFor(b, a.me.nick), a.me.nick, a.me.pub);
            Linked(SessionOf(a, b.me.nick), SessionOf(c, a.me.nick))
  {
    RolesCross(p, a.me.sec, b.me.sec);
    hide Exchange;
  }

  /** The receiver's state when its handler runs on a relayed blob. */
  function RelayReading(p: Platform, c: Core, sender: QString, key: bytes): Core {
    RelayEntered(KeyedIfNeeded(p, CryptoFor(c, sender), sender, key), sender)
  }

  /** A message in a relay envelope is handled, whichever of this peer's sessions and nonces encrypted it. */
  lemma RelayedPacketArrives(p: Platform, a: Core, b: Core, sent: Chat, at: Msecs, nonce: bytes, now: Msecs)
    requires Laws(p) && Nameable(a.me.nick) && |nonce| == NONCE_BYTES
    requires OwnsKey(p, a.me) && OwnsKey(p, b.me) && a.me.pub != b.me.pub
    requires SessionOf(a, b.me.nick).ready && AgreedOrNone(p, a, b.me.nick, b.me.pub)
    requires AgreedOrNone(p, b, a.me.nick, a.me.pub)
    requires |EncodeChat(sent)| < NULL_SIZE && sent.sender == a.me.nick
    ensures var blob := RelayEnvelope(p, a.me, Encrypt(p, SessionOf(a, b.me.nick), MessageBytes(sent, at), nonce));
            && blob != []
            && RelayReceived(p, b, blob, now) == Delivered(p, RelayReading(p, b, a.me.nick, a.me.pub), sent, at, now)
  {
    hide MessageBytes, Encrypt, Decrypt, RelayEnvelope, ParseRelay, Delivered, PlainHandled, KeyedIfNeeded, Laws,
      EncodeChat, RelayEntered, Linked, AgreedOrNone, KxLaw, BoxLaw, Utf8Law, WellFormed;
    LawsGive(p);
    var sa, plain := SessionOf(a, b.me.nick), MessageBytes(sent, at);
    RelayEnvelopeParses(p, a.me, Encrypt(p, sa, plain, nonce));
    KeyedIsLinked(p, a, b);
    var c := KeyedIfNeeded(p, CryptoFor(b, a.me.nick), a.me.nick, a.me.pub);
    DecryptUndoesEncrypt(p, sa, SessionOf(c, a.me.nick), plain, nonce);
    MessageHandled(p, RelayEntered(c, a.me.nick), sent, at, a.me.nick, now);
  }

  /**
   * End to end, relayed: the STORE line and the server's reply both carry the very blob, and the
   * handler is called exactly as by a direct delivery, even if the receiver had no key for the sender.
   */
  lemma RelayDelivery(p: Platform, a: Core, b: Core, chat: Chat, at: Msecs, now: Msecs, auth: QString, find: QString)
    requires Laws(p) && Nameable(a.me.nick) && Nonces(a.me) && a.mail.db.ready && Numbered(a.mail.db)
    requires OwnsKey(p, a.me) && OwnsKey(p, b.me) && a.me.pub != b.me.pub
    requires AgreedOrNone(p, a, b.me.nick, b.me.pub) && AgreedOrNone(p, b, a.me.nick, a.me.pub)
    requires !Refused(a, b.me.nick, chat.text) && RouteTo(a, b.me.nick) == Relayed
    requires |EncodeChat(chat.(sender := a.me.nick))| < NULL_SIZE
    ensures var sent := chat.(sender := a.me.nick);
            var blob := RelayBlob(p, a, b.me.nick, MessageBytes(sent, at));
            var hex: QString, msg: QString := ToHex(blob), Prefix(12);
            && SendMessage(p, a, b.me.nick, chat, at).mail.out
               == a.mail.out + [ToServer(Store(b.me.nick, blob), FromMessage(a.mail.db.nextMessage))]
            && (COLON !in b.me.nick ==> Split<unit>(Render(Store(b.me.nick, blob)), COLON) == [STORE(), b.me.nick, hex])
            && ParseResponse(msg + hex, auth, find) == Some(MessagesFetched([blob]))
            && RelayReceived(p, b, blob, now) == Delivered(p, RelayReading(p, b, a.me.nick, a.me.pub), sent, at, now)
  {
    hide Render, Split, STORE, MessageBytes, Encrypt, RelayEnvelope, Delivered, RelayReceived, RelayReading,
      SendMessage, Laws, EncodeChat, ParseResponse, Prefix, ToHex, AgreedOrNone, Numbered;
    var sent := chat.(sender := a.me.nick);
    SendHandsOver(p, a, b.me.nick, chat, at);
    RelayedPacketArrives(p, a, b, sent, at, a.me.nonces(a.drawn), now);
    ParseMessage(RelayBlob(p, a, b.me.nick, MessageBytes(sent, at)), auth, find);
    if COLON !in b.me.nick { StoreLineRoundTrip(b.me.nick, RelayBlob(p, a, b.me.nick, MessageBytes(sent, at))); }
  }

  /** A message that waited in the outbox and is flushed to the relay is delivered as if sent that way at once. */
  lemma FlushedDelivery(p: Platform, a: Core, b: Core, sent: Chat, at: Msecs, i: nat, now: Msecs)
    requires Laws(p) && Nameable(a.me.nick) && Nonces(a.me)
    requires OwnsKey(p, a.me) && OwnsKey(p, b.me) && a.me.pub != b.me.pub
    requires SessionOf(a, b.me.nick).ready && AgreedOrNone(p, a, b.me.nick, b.me.pub)
    requires AgreedOrNone(p, b, a.me.nick, a.me.pub)
    requires |EncodeChat(sent)| < NULL_SIZE && sent.sender == a.me.nick
    requires i < |Peeked(a.mail.db, b.me.nick)| && Peeked(a.mail.db, b.me.nick)[i] == MessageBytes(sent, at)
    ensures var out := RelayFlushed(p, a, b.me.nick).mail.out;
            var k := |a.mail.out| + i;
            && |out| == |a.mail.out| + |Peeked(a.mail.db, b.me.nick)|
            && out[k].ToServer? && out[k].cmd.Store? && out[k].cmd.nick == b.me.nick
            && RelayReceived(p, b, out[k].cmd.blob, now)
              == Delivered(p, RelayReading(p, b, a.me.nick, a.me.pub), sent, at, now)
  {
    hide MessageBytes, Encrypt, RelayEnvelope, Delivered, RelayReceived, RelayReading, Laws, EncodeChat, AgreedOrNone,
      Peeked, Confirmed, Drains;
    RelayedPacketArrives(p, a, b, sent, at, a.me.nonces(a.drawn + i), now);
  }

  /** A relayed message puts the sender in relay mode, so its receipt goes through the relay too. */
  lemma RelayAnswersByRelay(p: Platform, a: Core, b: Core)
    requires KxLaw(p) && OwnsKey(p, a.me) && OwnsKey(p, b.me) && a.me.pub != b.me.pub
    requires SessionOf(a, b.me.nick).ready && AgreedOrNone(p, a, b.me.nick, b.me.pub)
    requires AgreedOrNone(p, b, a.me.nick, a.me.pub)
    ensures var c := RelayReading(p, b, a.me.nick, a.me.pub);
            && RouteTo(c, a.me.nick) == Relayed && c.me == b.me && (InRelay(b, a.me.nick) || c.net.connections == [])
            && Linked(SessionOf(a, b.me.nick), SessionOf(c, a.me.nick))
  {
    KeyedIsLinked(p, a, b);
    hide KxLaw, AgreedOrNone, Exchange, Placed;
  }

  // ── the receipt comes back ─────────────────────────────────────────────────

  /** A delivery stores the message as an incoming row of the sender's conversation. */
  lemma DeliveryStores(p: Platform, c: Core, chat: Chat, at: Msecs, now: Msecs)
    requires c.mail.db.ready
    ensures Delivered(p, c, chat, at, now).mail.db.messages
         == c.mail.db.messages + [NewRow(c.mail.db.nextMessage, chat.sender, chat, at, false)]
  {
    hide NewRow, Encrypt, Serialize, RelayEnvelope, PeerEnvelope, RelaySet, Writes;
  }

  /** The receipt a delivery hands to whichever transport there is, for exactly that timestamp. */
  function Answer(p: Platform, c: Core, chat: Chat, at: Msecs, now: Msecs): Outbound {
    var plain := ReceiptBytes(Receipt(c.me.nick, Secs(at)), now);
    if RouteTo(c, chat.sender) == Relayed
    then ToServer(Store(chat.sender, RelayBlob(p, c, chat.sender, plain)), Unowned)
    else ToPeers(DirectBlob(p, c, chat.sender, plain), Unowned)
  }

  lemma DeliveryAnswers(p: Platform, c: Core, chat: Chat, at: Msecs, now: Msecs)
    requires RouteTo(c, chat.sender) != Queued
    ensures var d, e := Delivered(p, c, chat, at, now), Answer(p, c, chat, at, now);
            && d.mail.out == c.mail.out + [e] && d.net == (if e.ToPeers? then DataSent(c.net, e.data) else c.net)
            && (e.ToPeers? <==> RouteTo(c, chat.sender) == Direct)
  {
    hide NewRow, Encrypt, Serialize, EncodeReceipt, RelayEnvelope, PeerEnvelope, RelaySet, Writes;
    var c1 := ChatReceived(c, chat, at);
    assert RouteTo(c1, chat.sender) == RouteTo(c, chat.sender);
    assert SessionOf(c1, chat.sender) == SessionOf(c, chat.sender);
    assert SessionOf(CryptoFor(c1, chat.sender), chat.sender) == SessionOf(c, chat.sender);
  }

  /** The row of a sent message is outgoing, to the peer, stamped in whole seconds. */
  lemma SentRow(id: int, peer: QString, chat: Chat, at: Msecs)
    ensures var row := NewRow(id, peer, chat, at, true);
            To(row, peer) && row.timestamp == Secs(at) && row.text == chat.text
  {
  }

  /** How a client receives what the other handed to a transport. */
  function Received(p: Platform, c: Core, e: Outbound, now: Msecs): Core {
    match e
    case ToPeers(data, _) => DataReceived(p, c, data, now)
    case ToServer(Store(_, blob), _) => RelayReceived(p, c, blob, now)
    case _ => c
  }

  /** A delivered receipt marks the rows it covers, over either path. */
  lemma ReceiptMarks(p: Platform, a: Core, b: Core, chat: Chat, at: Msecs, handledAt: Msecs, t: Msecs, now: Msecs)
    requires Laws(p) && Nameable(b.me.nick) && Nonces(b.me) && 2 * |b.me.nick| + 12 < NULL_SIZE
    requires MailInv(a.mail, t) && t <= now && chat.sender == a.me.nick
    requires Linked(SessionOf(b, a.me.nick), SessionOf(a, b.me.nick))
    ensures var d := Received(p, a, Answer(p, b, chat, at, handledAt), now);
            Extends(a.mail.db.messages, d.mail.db.messages) && ReadUpTo(d.mail.db.messages, b.me.nick, Secs(at))
  {
    hide MailInv, Encrypt, Decrypt, RelayEnvelope, PeerEnvelope, ParseRelay, PlainHandled, KeyedIfNeeded, Laws, Read,
      SenderMet, ReceiptBytes, SetRead, Extends, ReadUpTo, RelaySet, Nameable, Secs;
    var r, e := Receipt(b.me.nick, Secs(at)), Answer(p, b, chat, at, handledAt);
    var plain, sb, nonce := ReceiptBytes(r, handledAt), SessionOf(b, a.me.nick), b.me.nonces(b.drawn);
    NameNonEmpty(b.me.nick);
    LawsGive(p);
    ReadKeeps(a.mail.db, b.me.nick, Secs(at), t) by { DbFacts(a.mail, t); }
    DbFacts(a.mail, t);
    var a1;
    if e.ToPeers? {
      PeerEnvelopeOpens(p, b.me, sb, a, plain, nonce);
      a1 := PeerReading(p, a, e.data);
      ReadingKeepsMail(p, a, e.data);
    } else {
      RelayEnvelopeParses(p, b.me, Encrypt(p, sb, plain, nonce));
      var c := KeyedIfNeeded(p, CryptoFor(a, b.me.nick), b.me.nick, b.me.pub);
      ReadyStaysKeyed(p, a, b.me.nick, b.me.pub);
      DecryptUndoesEncrypt(p, sb, SessionOf(a, b.me.nick), plain, nonce);
      a1 := RelayEntered(c, b.me.nick);
    }
    ReceiptHandled(p, a1, r, handledAt, b.me.nick, now);
    assert Received(p, a, e, now) == ReceiptReceived(a1, r);
  }

  lemma NameNonEmpty(nick: QString)
    requires Nameable(nick)
    ensures nick != []
  {
  }

  lemma DbFacts(m: Mail, t: Msecs)
    requires MailInv(m, t)
    ensures m.db.ready && Numbered(m.db) && Watermark(m.db.messages, t)
  {
  }

  lemma ReadingKeepsMail(p: Platform, c: Core, blob: bytes)
    ensures PeerReading(p, c, blob).mail == c.mail
  {
  }

  lemma ReadyStaysKeyed(p: Platform, c: Core, peer: QString, key: bytes)
    requires SessionOf(c, peer).ready
    ensures var d := KeyedIfNeeded(p, CryptoFor(c, peer), peer, key); d == c
  {
  }

  /**
   * Receipt closure: `a` sends a message, `b` handles it, and whatever `a` does meanwhile, delivering
   * the receipt `b` answered with marks that very row, and every row to `b` up to its time, as read.
   */
  lemma ReceiptClosure(p: Platform, a: Core, b: Core, chat: Chat, t: Msecs, at: Msecs, events: seq<Timed>,
                       handledAt: Msecs, now: Msecs)
    requires Laws(p) && Nameable(b.me.nick) && Nonces(b.me) && 2 * |b.me.nick| + 12 < NULL_SIZE
    requires Invariant(a, t) && t <= at && !Refused(a, b.me.nick, chat.text)
    requires InTime(events, at) && EndTime(events, at) <= now
    requires RouteTo(b, a.me.nick) != Queued
    requires Linked(SessionOf(b, a.me.nick),
                    SessionOf(Run(p, SendMessage(p, a, b.me.nick, chat, at), events), b.me.nick))
    ensures var sent := chat.(sender := a.me.nick);
            var later := Run(p, SendMessage(p, a, b.me.nick, chat, at), events);
            var rows := Received(p, later, Answer(p, b, sent, at, handledAt), now).mail.db.messages;
            && Delivered(p, b, sent, at, handledAt).mail.out == b.mail.out + [Answer(p, b, sent, at, handledAt)]
            && MessageRead(rows, |a.mail.db.messages|, b.me.nick, sent, at)
  {
    hide Laws, Invariant, InTime, Run, MessageSent, Delivered, Received, Answer, Linked, AnyLost, Nonces, RouteTo,
      Extends, ReadUpTo, EndTime, DiscardsSomewhere, Nameable, Secs, NewRow;
    var sent := chat.(sender := a.me.nick);
    var a1 := MessageSent(p, a, b.me.nick, sent, at);
    var later := Run(p, a1, events);
    InvariantGives(a, t);
    DbFacts(a.mail, t) by { hide MailInv; }
    InvariantLater(a, t, at);
    SendKeeps(p, a, b.me.nick, chat, at);
    SendHandsOver(p, a, b.me.nick, chat, at);
    RunKeeps(p, a1, events, at);
    InvariantGives(later, EndTime(events, at));
    DeliveryAnswers(p, b, sent, at, handledAt);
    ReceiptMarks(p, later, b, sent, at, handledAt, EndTime(events, at), now);
    var rows, k := Received(p, later, Answer(p, b, sent, at, handledAt), now).mail.db.messages, |a.mail.db.messages|;
    ExtendsTransitive(a1.mail.db.messages, later.mail.db.messages, rows);
    RowKept(a1.mail.db.messages, rows, k);
    SentRow(a.mail.db.nextMessage, b.me.nick, sent, at);
    CoveredRow(rows, b.me.nick, Secs(at), k);
  }

  /** Row `k` is the sent message, read; and so is every row to the peer that is not younger. */
  ghost predicate MessageRead(rows: seq<Row>, k: nat, peer: QString, sent: Chat, at: Msecs) {
    && k < |rows| && To(rows[k], peer) && rows[k].text == sent.text && rows[k].timestamp == Secs(at) && rows[k].isRead
    && ReadUpTo(rows, peer, rows[k].timestamp)
  }

  /** The whole exchange over a peer connection: message out, receipt back by whatever way `b` has. */
  lemma DirectRoundTrip(p: Platform, a: Core, b: Core, chat: Chat, t: Msecs, at: Msecs, events: seq<Timed>,
                        handledAt: Msecs, now: Msecs)
    requires Laws(p) && Nameable(a.me.nick) && Nonces(a.me) && Nameable(b.me.nick) && Nonces(b.me)
    requires 2 * |b.me.nick| + 12 < NULL_SIZE
    requires Invariant(a, t) && t <= at && !Refused(a, b.me.nick, chat.text) && RouteTo(a, b.me.nick) == Direct
    requires |EncodeChat(chat.(sender := a.me.nick))| < NULL_SIZE
    requires InTime(events, at) && EndTime(events, at) <= now && RouteTo(b, a.me.nick) != Queued
    requires Linked(SessionOf(a, b.me.nick), SessionOf(b, a.me.nick))
    requires Linked(SessionOf(b, a.me.nick),
                    SessionOf(Run(p, SendMessage(p, a, b.me.nick, chat, at), events), b.me.nick))
    ensures var sent := chat.(sender := a.me.nick);
            var blob := DirectBlob(p, a, b.me.nick, MessageBytes(sent, at));
            var c := DataReceived(p, b, blob, handledAt);
            var later := Run(p, SendMessage(p, a, b.me.nick, chat, at), events);
            && SendMessage(p, a, b.me.nick, chat, at).net == DataSent(a.net, blob)
            && |c.mail.out| == |b.mail.out| + 1
            && MessageRead(Received(p, later, c.mail.out[|b.mail.out|], now).mail.db.messages, |a.mail.db.messages|,
                           b.me.nick, sent, at)
  {
    hide MessageBytes, Encrypt, PeerEnvelope, Delivered, PlainHandled, Read, SenderMet, SendMessage, DataSent, Laws,
      EncodeChat, Run, Received, Answer, MessageRead, Linked, Invariant, InTime, EndTime, Nameable, Nonces, SessionOf,
      Refused;
    var sent := chat.(sender := a.me.nick);
    var plain := MessageBytes(sent, at);
    var blob := DirectBlob(p, a, b.me.nick, plain);
    InvariantGives(a, t);
    DbFacts(a.mail, t) by { hide MailInv; }
    SendHandsOver(p, a, b.me.nick, chat, at);
    DirectHandled(p, a, b, sent, at, handledAt);
    ReadingKeepsRoute(p, b, blob, a.me.nick);
    ReceiptClosure(p, a, PeerReading(p, b, blob), chat, t, at, events, handledAt, now);
  }

  predicate SameKeying(s: Session, t: Session) {
    s.ready == t.ready && s.rx == t.rx && s.tx == t.tx
  }

  /** The whole exchange through the relay, even when `b` learns `a`'s key only from the envelope. */
  lemma RelayRoundTrip(p: Platform, a: Core, b: Core, chat: Chat, t: Msecs, at: Msecs, events: seq<Timed>,
                       handledAt: Msecs, now: Msecs)
    requires Laws(p) && Nameable(a.me.nick) && Nonces(a.me) && Nameable(b.me.nick) && Nonces(b.me)
    requires 2 * |b.me.nick| + 12 < NULL_SIZE
    requires OwnsKey(p, a.me) && OwnsKey(p, b.me) && a.me.pub != b.me.pub
    requires AgreedOrNone(p, a, b.me.nick, b.me.pub) && AgreedOrNone(p, b, a.me.nick, a.me.pub)
    requires Invariant(a, t) && t <= at && !Refused(a, b.me.nick, chat.text) && RouteTo(a, b.me.nick) == Relayed
    requires |EncodeChat(chat.(sender := a.me.nick))| < NULL_SIZE
    requires InTime(events, at) && EndTime(events, at) <= now
    requires SameKeying(SessionOf(a, b.me.nick),
                        SessionOf(Run(p, SendMessage(p, a, b.me.nick, chat, at), events), b.me.nick))
    ensures var sent := chat.(sender := a.me.nick);
            var sending := SendMessage(p, a, b.me.nick, chat, at);
            var blob := RelayBlob(p, a, b.me.nick, MessageBytes(sent, at));
            var c := RelayReceived(p, b, blob, handledAt);
            && sending.mail.out == a.mail.out + [ToServer(Store(b.me.nick, blob), FromMessage(a.mail.db.nextMessage))]
            && |c.mail.out| == |b.mail.out| + 1 && c.mail.out[|b.mail.out|].ToServer?
            && MessageRead(Received(p, Run(p, sending, events), c.mail.out[|b.mail.out|], now).mail.db.messages,
                           |a.mail.db.messages|, b.me.nick, sent, at)
  {
    hide MessageBytes, Encrypt, RelayEnvelope, Delivered, RelayReceived, RelayReading, SendMessage, Laws, EncodeChat,
      Run, Received, MessageRead, Invariant, InTime, EndTime, Nameable, Nonces, Refused, AgreedOrNone, ReceiptBytes,
      SessionOf, InRelay, ParseResponse, Prefix, ToHex, OwnsKey, KxLaw;
    var sent := chat.(sender := a.me.nick);
    InvariantGives(a, t);
    DbFacts(a.mail, t) by { hide MailInv; }
    LawsGive(p);
    NonceAt(a.me, a.drawn);
    RelayDelivery(p, a, b, chat, at, handledAt, [], []);
    RelayAnswersByRelay(p, a, b);
    var c := RelayReading(p, b, a.me.nick, a.me.pub);
    RelayReadingKeepsMail(p, b, a.me.nick, a.me.pub);
    ReceiptClosure(p, a, c, chat, t, at, events, handledAt, now);
  }

  lemma RelayReadingKeepsMail(p: Platform, c: Core, sender: QString, key: bytes)
    ensures RelayReading(p, c, sender, key).mail == c.mail
  {
    hide WithSecret, RelaySet;
  }

  lemma NonceAt(me: Me, i: nat)
    requires Nonces(me)
    ensures |me.nonces(i)| == NONCE_BYTES
  {
  }

  lemma ReadingKeepsRoute(p: Platform, c: Core, blob: bytes, peer: QString)
    ensures var d := PeerReading(p, c, blob);
            && RouteTo(d, peer) == RouteTo(c, peer) && SessionOf(d, peer) == SessionOf(c, peer) && d.me == c.me
            && d.mail == c.mail
  {
    hide SenderOf;
  }

  lemma InvariantGives(c: Core, t: Msecs)
    requires Invariant(c, t)
    ensures MailInv(c.mail, t)
  {
    hide MailInv, InboxInv, Lockstep;
  }

  lemma RowKept(rows: seq<Row>, later: seq<Row>, k: nat)
    requires Extends(rows, later) && k < |rows|
    ensures k < |later| && Succeeds(rows[k], later[k])
  {
  }

  lemma CoveredRow(rows: seq<Row>, peer: QString, upTo: int64, k: nat)
    requires ReadUpTo(rows, peer, upTo) && k < |rows| && To(rows[k], peer) && rows[k].timestamp <= upTo
    ensures rows[k].isRead
  {
  }
}
