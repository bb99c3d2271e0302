/** Whom data and packets are taken to be for or from: connections shared between peers, and names inside packets. */
module Misattribution {
  import opened Bytes
  import opened Platform
  import opened DataStream
  import opened Crypto
  import opened Protocol
  import opened LocalDb
  import opened Network
  import opened Core
  import opened EndToEnd
  import opened Meeting
  import opened Shortfalls

  // ── a message on another peer's connection ─────────────────────────────────

  /** A contact found while some connection is listed is keyed, and counts as reachable directly. */
  lemma FoundWhileConnected(p: Platform, c: Core, nick: QString, key: bytes, now: Msecs)
    requires Exchange(p, c.me.pub, c.me.sec, key).Some? && nick !in c.verify.pending && nick !in c.sessions
    requires c.inbox.buffer == [] && !InRelay(c, nick) && c.net.connections != []
    ensures var d := PeerFound(p, c, nick, key, now);
            d.net == c.net && d.mail == c.mail && d.me == c.me && RouteTo(d, nick) == Direct
  {
    hide Exchange, RelayFlushed, HostDialled;
  }

  /** Connected to one peer and having asked about another. */
  function AskingAnother(p: Platform, me: Me, first: QString, key: bytes, second: QString, now: Msecs): Core {
    ServerSent(Run(p, Start(me), Dialling(first, key, now)), Find(second), Unowned)
  }

  lemma DiallingState(p: Platform, me: Me, peer: QString, key: bytes, now: Msecs)
    requires Exchange(p, me.pub, me.sec, key).Some?
    ensures var c := Run(p, Start(me), Dialling(peer, key, now));
            && c.mail == HavingAsked(me, peer).mail && c.me == me && c.sessions.Keys == {peer}
            && c.verify.pending == map[]
            && c.verify.heard == 1 && c.inbox == Start(me).inbox && c.peers.relay.Keys == {peer}
            && c.net.owners == map[0 := peer]
  {
    hide Exchange, HandshakeBytes, Run, Asked, PeerFound;
    RunThree(p, Start(me), Timed(FindPeer(peer), now), Timed(LookupReply(peer, key), now), Timed(Opened(0), now));
    FindAsks(p, me, peer, key, now);
    FindState(p, me, peer, key, now);
  }

  lemma FindState(p: Platform, me: Me, peer: QString, key: bytes, now: Msecs)
    requires Exchange(p, me.pub, me.sec, key).Some?
    ensures var c := PeerFound(p, HavingAsked(me, peer), peer, key, now);
            && c.net == Dialled(NO_CONNECTIONS, peer) && c.mail == HavingAsked(me, peer).mail && c.me == me
            && c.sessions.Keys == {peer} && c.verify.pending == map[] && c.verify.heard == 1
            && c.inbox == Start(me).inbox && c.peers.relay.Keys == {peer}
  {
    hide Exchange, Decrypt, Blobs, PlainHandled;
  }

  lemma AnotherAsked(p: Platform, me: Me, first: QString, key: bytes, second: QString, other: bytes, now: Msecs)
    requires Exchange(p, me.pub, me.sec, key).Some?
    ensures var c := AskingAnother(p, me, first, key, second, now);
            && Step(p, Run(p, Start(me), Dialling(first, key, now)), Timed(FindPeer(second), now)) == c
            && Enabled(c, LookupReply(second, other))
  {
    hide Exchange, Run, Asked;
    DiallingState(p, me, first, key, now);
    AsksTwice(p, me, first, second, other, now);
    SameAsked(AskingAnother(p, me, first, key, second, now), HavingAskedTwice(me, first, second));
  }

  /**
   * A run from login: one peer is found and dialled, then another one is found, and a message to that one is
   * sent. Its row says Sent, nothing is queued, and its only bytes went out on the first peer's connection.
   */
  lemma SentToTheWrongPeer(p: Platform, me: Me, first: QString, key: bytes, second: QString, other: bytes, chat: Chat,
                           now: Msecs)
    requires Exchange(p, me.pub, me.sec, key).Some? && Exchange(p, me.pub, me.sec, other).Some?
    requires first != second && chat.text != [] && second != [] && second != me.nick
    ensures var connected := Run(p, Start(me), Dialling(first, key, now));
            var found := Step(p, Step(p, connected, Timed(FindPeer(second), now)),
                              Timed(LookupReply(second, other), now));
            var end := Step(p, found, Timed(Send(second, chat), now));
            && |end.mail.db.messages| == 1 && end.mail.db.messages[0].peer == second
            && end.mail.db.messages[0].status == MsgSent && end.mail.db.outbox == []
            && |end.net.wire| == 2 && end.net.wire[1].0 == 0
            && Belongs(end.net, 0, first) && forall conn: nat :: !Belongs(end.net, conn, second)
  {
    hide Exchange, Run, Asked, PeerFound, SendMessage, RouteTo, DirectBlob, MessageBytes, Writes, AskingAnother,
      Dialling;
    var c := AskingAnother(p, me, first, key, second, now);
    DiallingState(p, me, first, key, now);
    DialConnects(p, me, first, key, now);
    AnotherAsked(p, me, first, key, second, other, now);
    AskingKeeps(p, me, first, key, second, now);
    FoundWhileConnected(p, c, second, other, now);
    var d := PeerFound(p, c, second, other, now);
    SentOnTheOne(p, d, second, chat, now);
  }

  lemma AskingKeeps(p: Platform, me: Me, first: QString, key: bytes, second: QString, now: Msecs)
    ensures var c, b := AskingAnother(p, me, first, key, second, now), Run(p, Start(me), Dialling(first, key, now));
            && c.net == b.net && c.mail.db == b.mail.db && c.me == b.me && c.sessions == b.sessions
            && c.verify == b.verify && c.inbox == b.inbox && c.peers == b.peers
  {
    hide Run, Dialling;
  }

  lemma SentOnTheOne(p: Platform, c: Core, peer: QString, chat: Chat, now: Msecs)
    requires RouteTo(c, peer) == Direct && c.mail.db == Db(true, [], [], 1, 1) && !Refused(c, peer, chat.text)
    requires c.net.connections == [0] && c.net.connected == {0}
    ensures var d := SendMessage(p, c, peer, chat, now);
            && |d.mail.db.messages| == 1 && d.mail.db.messages[0].peer == peer
            && d.mail.db.messages[0].status == MsgSent && d.mail.db.outbox == []
            && |d.net.wire| == |c.net.wire| + 1 && d.net.wire[|c.net.wire|].0 == 0 && d.net.owners == c.net.owners
  {
    hide SendMessage, RouteTo, DirectBlob, MessageBytes, Writes;
    SendHandsOver(p, c, peer, chat, now);
    OneWrite(c.net, DirectBlob(p, c, peer, MessageBytes(chat.(sender := c.me.nick), now)));
  }

  // ── a name inside a packet ─────────────────────────────────────────────────

  /** Whatever changed or was added is in this peer's conversation. */
  predicate OnlyUnder(rows: seq<Row>, later: seq<Row>, peer: QString) {
    && |rows| <= |later|
    && (forall i :: 0 <= i < |rows| && later[i] != rows[i] ==> later[i].peer == peer)
    && (forall i :: |rows| <= i < |later| ==> later[i].peer == peer)
  }

  /** The name a chat payload or a receipt gives itself, empty if it gives none. */
  function NamedBy(packet: Packet): QString {
    if packet.kind == CHAT_MESSAGE then DecodeChat(packet.data, []).sender
    else if packet.kind == READ_RECEIPT then DecodeReceipt(packet.data, []).sender
    else []
  }

  /** Both handlers trust the name inside over the envelope's, if there is one. */
  lemma NameInside(packet: Packet, hint: QString)
    ensures packet.kind == CHAT_MESSAGE ==>
      DecodeChat(packet.data, hint).sender == if NamedBy(packet) == [] then hint else NamedBy(packet)
    ensures packet.kind == READ_RECEIPT ==>
      DecodeReceipt(packet.data, hint).sender == if NamedBy(packet) == [] then hint else NamedBy(packet)
  {
    hide ReadString, ReadInt32, ReadInt64;
  }

  /** The packet names someone else than the envelope, and is a message, or a receipt that covers some row. */
  predicate Impersonates(m: Mail, packet: Packet, hint: QString) {
    && NamedBy(packet) != [] && NamedBy(packet) != hint
    && (packet.kind == READ_RECEIPT ==>
          exists i :: 0 <= i < |m.db.messages|
                      && Covered(m.db.messages[i], NamedBy(packet), DecodeReceipt(packet.data, hint).upTo))
  }

  /**
   * A packet changes only the conversation of the peer whose envelope it came in exactly unless the name
   * inside it is another one, and it is a message, or a receipt that covers some row.
   */
  lemma HandledUnderEnvelope(p: Platform, c: Core, packet: Packet, hint: QString, now: Msecs)
    requires c.mail.db.ready
    ensures OnlyUnder(c.mail.db.messages, PacketHandled(p, c, packet, hint, now).mail.db.messages, hint)
       <==> !Impersonates(c.mail, packet, hint)
  {
    hide DecodeChat, DecodeReceipt, Transmitted, Serialize;
    NameInside(packet, hint);
    if packet.kind == CHAT_MESSAGE {
      var chat := DecodeChat(packet.data, hint);
      ReceiptKeepsRows(p, ChatReceived(c, chat, packet.timestamp), chat.sender, Secs(packet.timestamp), now);
      RowsAppend(c.mail.db.messages, NewRow(c.mail.db.nextMessage, chat.sender, chat, packet.timestamp, false), hint);
      hide OnlyUnder;
    } else if packet.kind == READ_RECEIPT {
      var r := DecodeReceipt(packet.data, hint);
      RowsMarked(c.mail.db.messages, r.sender, r.upTo, hint);
      hide OnlyUnder;
    }
  }

  lemma ReceiptKeepsRows(p: Platform, c: Core, peer: QString, upTo: int64, now: Msecs)
    ensures ReceiptSent(p, c, peer, upTo, now).mail.db == c.mail.db
  {
    hide Encrypt, RelayEnvelope, PeerEnvelope, RelaySet, DataSent, Serialize;
  }

  lemma RowsAppend(rows: seq<Row>, row: Row, peer: QString)
    ensures OnlyUnder(rows, rows + [row], peer) <==> row.peer == peer
  {
    assert (rows + [row])[|rows|] == row;
  }

  lemma RowsMarked(rows: seq<Row>, named: QString, upTo: int64, peer: QString)
    ensures OnlyUnder(rows, SetRead(rows, named, upTo), peer)
       <==> named == peer || forall i :: 0 <= i < |rows| ==> !Covered(rows[i], named, upTo)
  {
    if named != peer && exists i :: 0 <= i < |rows| && Covered(rows[i], named, upTo) {
      var i :| 0 <= i < |rows| && Covered(rows[i], named, upTo);
      assert SetRead(rows, named, upTo)[i].status == MsgRead;
    }
  }

  /** The session under which a peer that knows this client's key writes to it. */
  function WritersSession(p: Platform, writer: Me, key: bytes): Session {
    WithSecret(p, WithIdentity(NO_SESSION, writer.pub, writer.sec), key)
  }

  /** A receipt that names somebody else, in an envelope of the writer's own. */
  function ForeignReceipt(p: Platform, writer: Me, key: bytes, named: QString, upTo: int64, nonce: bytes,
                          now: Msecs): bytes {
    RelayEnvelope(p, writer, Encrypt(p, WritersSession(p, writer, key), ReceiptBytes(Receipt(named, upTo), now), nonce))
  }

  lemma ForeignReceiptHandled(p: Platform, c: Core, writer: Me, named: QString, upTo: int64, nonce: bytes, now: Msecs)
    requires Laws(p) && Nameable(writer.nick) && |nonce| == NONCE_BYTES && OwnsKey(p, writer) && OwnsKey(p, c.me)
    requires writer.pub != c.me.pub && writer.nick !in c.sessions && named != [] && 2 * |named| + 12 < NULL_SIZE
    ensures var d := RelayReceived(p, c, ForeignReceipt(p, writer, c.me.pub, named, upTo, nonce, now), now);
            d.mail == c.mail.(db := MarkedRead(c.mail.db, named, upTo))
  {
    hide Encrypt, Decrypt, RelayEnvelope, ParseRelay, PlainHandled, ReceiptBytes, BoxLaw, Utf8Law, KxLaw, Nameable,
      Exchange, RelaySet, MarkedRead;
    var s, plain := WritersSession(p, writer, c.me.pub), ReceiptBytes(Receipt(named, upTo), now);
    RolesCross(p, writer.sec, c.me.sec);
    var c1 := KeyedIfNeeded(p, CryptoFor(c, writer.nick), writer.nick, writer.pub);
    RelayEnvelopeParses(p, writer, Encrypt(p, s, plain, nonce));
    DecryptUndoesEncrypt(p, s, SessionOf(c1, writer.nick), plain, nonce);
    ReceiptHandled(p, RelayEntered(c1, writer.nick), Receipt(named, upTo), now, writer.nick, now);
  }

  /**
   * A run from login: a message to one peer waits in the outbox, and a receipt from another one that names the
   * first marks it as read.
   */
  lemma OtherPeerMarksRead(p: Platform, me: Me, peer: QString, writer: Me, chat: Chat, nonce: bytes, at: Msecs,
                           now: Msecs)
    requires Laws(p) && Nameable(writer.nick) && |nonce| == NONCE_BYTES && OwnsKey(p, writer) && OwnsKey(p, me)
    requires writer.pub != me.pub && writer.nick != peer && chat.text != [] && peer != [] && peer != me.nick
    requires 2 * |peer| + 12 < NULL_SIZE
    ensures var waiting := Step(p, Start(me), Timed(Send(peer, chat), at));
            var blob := ForeignReceipt(p, writer, me.pub, peer, Secs(at), nonce, now);
            var end := Step(p, waiting, Timed(FetchReply([blob]), now)).mail.db;
            && |end.messages| == 1 && end.messages[0].peer == peer && end.messages[0].isRead
            && end.messages[0].status == MsgRead && Peeked(end, peer) != []
  {
    hide Laws, Nameable, OwnsKey, SendMessage, RelayReceived, ForeignReceipt, MessageBytes, Secs, Less;
    var c := SendMessage(p, Start(me), peer, chat, at);
    FirstQueues(p, me, peer, chat, at);
    ForeignReceiptHandled(p, c, writer, peer, Secs(at), nonce, now);
    FetchesOne(p, c, ForeignReceipt(p, writer, me.pub, peer, Secs(at), nonce, now), now);
    var row := OutRow(1, peer, MessageBytes(chat.(sender := me.nick), at));
    BlobsAppend([], row, peer);
    assert [] + [row] == [row];
  }
}
