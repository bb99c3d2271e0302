/**
 * What the messenger core does with each call and each signal, as functions of its state.
 * Origins, `trace`, `lookups`, `heard` and arrival numbers only record history; no reaction depends on them.
 */
module Core {
  import opened Bytes
  import opened Platform
  import opened DataStream
  import opened Crypto
  import opened Protocol
  import opened LocalDb
  import opened Network

  // ── state ──────────────────────────────────────────────────────────────────

  /** The logged-in identity, the listening port, and the nonces the generator will yield. */
  datatype Me = Me(nick: QString, pub: bytes, sec: bytes, port: nat, nonces: nat -> bytes)

  /** Why something was handed to a transport. */
  datatype Origin = FromMessage(id: int) | FromOutbox(peer: QString, packet: bytes) | Unowned

  /** Everything handed to the bootstrap client or broadcast to the peer connections, in order. */
  datatype Outbound = ToServer(cmd: Command, origin: Origin) | ToPeers(data: bytes, origin: Origin)

  /** A packet that left the outbox; `lost` if it was handed to no transport. */
  datatype Drain = Drain(peer: QString, packet: bytes, lost: bool)

  /**
   * Packets ever queued, packets drained, STOREs answered or lost, the message ids of the lost ones, and whose
   * message an outbox row holds.
   */
  datatype Trace = Trace(
    queued: seq<OutRow>, drained: seq<Drain>, answered: nat, missed: seq<int>, owner: map<int, int>)

  datatype Mail = Mail(db: Db, relayIds: seq<int>, out: seq<Outbound>, trace: Trace)

  /** A blob that could not be read yet, with its arrival number. */
  datatype Held = Held(data: bytes, arrival: nat)

  datatype Inbox = Inbox(buffer: seq<Held>, arrived: seq<bytes>, consumed: set<nat>, dropped: set<nat>)

  /** The relay flag of every peer met so far, and the order in which the peer map is walked. */
  datatype PeerMap = PeerMap(order: seq<QString>, relay: map<QString, bool>)

  /** Every peer met is walked. */
  ghost predicate Listed(m: PeerMap) {
    forall peer :: peer in m.relay <==> peer in m.order
  }

  type Peers = m: PeerMap | Listed(m) witness PeerMap([], map[])

  /** Peers whose claimed key awaits a lookup, the lookups reported so far, and the replies they came in. */
  datatype Verify = Verify(pending: map<QString, bytes>, lookups: set<(QString, bytes)>, heard: nat)

  datatype Core = Core(
    me: Me, sessions: map<QString, Session>, drawn: nat, peers: Peers,
    inbox: Inbox, verify: Verify, net: Net, mail: Mail)

  const NO_SESSION := Session([], [], [], [], false)

  function SessionOf(c: Core, peer: QString): Session {
    if peer in c.sessions then c.sessions[peer] else NO_SESSION
  }

  /** `crypto_for`: an entry, without a shared secret, for every peer asked about. */
  function CryptoFor(c: Core, peer: QString): Core {
    if peer in c.sessions then c else c.(sessions := c.sessions[peer := NO_SESSION])
  }

  function InRelay(c: Core, peer: QString): bool {
    peer in c.peers.relay && c.peers.relay[peer]
  }

  /** The peer map is walked in the order of its keys. */
  function Placed(order: seq<QString>, peer: QString): (r: seq<QString>)
    ensures forall q :: q in r <==> q in order || q == peer
  {
    if order == [] then [peer]
    else if order[0] == peer then order
    else if Less(peer, order[0]) then [peer] + order
    else
      assert order == [order[0]] + order[1..];
      [order[0]] + Placed(order[1..], peer)
  }

  function RelaySet(peers: Peers, peer: QString, relay: bool): (r: Peers)
    ensures r.relay == peers.relay[peer := relay]
  {
    PeerMap(Placed(peers.order, peer), peers.relay[peer := relay])
  }

  /** A peer that was met is no longer reached by relay. */
  function RelayLeft(peers: Peers, peer: QString): Peers
    requires peer in peers.relay
  {
    peers.(relay := peers.relay[peer := false])
  }

  /** Reading `m_peer_state[peer]` creates the entry it reads. */
  function Touched(peers: Peers, peer: QString): Peers {
    if peer in peers.relay then peers else RelaySet(peers, peer, false)
  }

  // ── envelopes ──────────────────────────────────────────────────────────────

  function RelayHeader(p: Platform, me: Me): bytes {
    p.toUtf8(Joined<unit>(me.nick, BAR, ToHex(me.pub) + [BAR]))
  }

  function RelayEnvelope(p: Platform, me: Me, encrypted: bytes): bytes {
    RelayHeader(p, me) + encrypted
  }

  function PeerEnvelope(p: Platform, me: Me, encrypted: bytes): bytes {
    p.toUtf8(me.nick + [BAR]) + encrypted
  }

  // ── handing over ───────────────────────────────────────────────────────────

  function ServerSent(c: Core, cmd: Command, origin: Origin): Core {
    c.(mail := c.mail.(out := c.mail.out + [ToServer(cmd, origin)]))
  }

  function PeersSent(c: Core, data: bytes, origin: Origin): Core {
    c.(net := DataSent(c.net, data), mail := c.mail.(out := c.mail.out + [ToPeers(data, origin)]))
  }

  datatype Route = Queued | Relayed | Direct

  function RouteTo(c: Core, peer: QString): Route {
    if !SessionOf(c, peer).ready then Queued
    else if InRelay(c, peer) then Relayed
    else if c.net.connections != [] then Direct
    else Queued
  }

  /** Encrypt for a peer and hand over, if there is a key and a way. */
  function Transmitted(p: Platform, c: Core, peer: QString, plain: bytes, origin: Origin): Core {
    var c1 := CryptoFor(c, peer);
    var s := SessionOf(c1, peer);
    if !s.ready then c1
    else
      var encrypted := Encrypt(p, s, plain, c.me.nonces(c.drawn));
      var c2 := c1.(drawn := c.drawn + 1, peers := Touched(c.peers, peer));
      match RouteTo(c, peer)
      case Queued => c2
      case Relayed => ServerSent(c2, Store(peer, RelayEnvelope(p, c.me, encrypted)), origin)
      case Direct => PeersSent(c2, PeerEnvelope(p, c.me, encrypted), origin)
  }

  // ── sending ────────────────────────────────────────────────────────────────

  predicate Refused(c: Core, peer: QString, text: QString) {
    text == [] || peer == [] || peer == c.me.nick
  }

  function MessageBytes(chat: Chat, now: Msecs): (b: bytes)
    ensures b != []
  {
    Serialize(Packet(CHAT_MESSAGE, now, EncodeChat(chat)))
  }

  /** What the tables and the id queue record of a sent message, by route. */
  function Recorded(m: Mail, peer: QString, id: int, packet: bytes, route: Route): Mail {
    match route
    case Queued =>
      var queued := if m.db.ready then [OutRow(m.db.nextOut, peer, packet)] else [];
      var owner := if m.db.ready then m.trace.owner[m.db.nextOut := id] else m.trace.owner;
      m.(db := StatusUpdated(OutEnqueued(m.db, peer, packet), id, MsgPending),
         trace := m.trace.(queued := m.trace.queued + queued, owner := owner))
    case Relayed => m.(db := StatusUpdated(m.db, id, MsgPending), relayIds := m.relayIds + [id])
    case Direct => m.(db := StatusUpdated(m.db, id, MsgSent))
  }

  function MessageSaved(c: Core, peer: QString, chat: Chat, now: Msecs): Core {
    c.(mail := c.mail.(db := Saved(c.mail.db, peer, chat, now, true)))
  }

  function MessageSent(p: Platform, c: Core, peer: QString, chat: Chat, now: Msecs): Core {
    var id := SavedId(c.mail.db);
    var packet := MessageBytes(chat, now);
    var c1 := MessageSaved(c, peer, chat, now);
    var c2 := Transmitted(p, c1, peer, packet, FromMessage(id));
    c2.(mail := Recorded(c2.mail, peer, id, packet, RouteTo(c, peer)))
  }

  function SendMessage(p: Platform, c: Core, peer: QString, chat: Chat, now: Msecs): Core {
    if Refused(c, peer, chat.text) then c else MessageSent(p, c, peer, chat.(sender := c.me.nick), now)
  }

  function ReceiptSent(p: Platform, c: Core, peer: QString, upTo: int64, now: Msecs): Core {
    Transmitted(p, c, peer, Serialize(Packet(READ_RECEIPT, now, EncodeReceipt(Receipt(c.me.nick, upTo)))), Unowned)
  }

  // ── receiving ──────────────────────────────────────────────────────────────

  function ChatReceived(c: Core, chat: Chat, at: Msecs): Core {
    c.(mail := c.mail.(db := Saved(c.mail.db, chat.sender, chat, at, false)))
  }

  function ReceiptReceived(c: Core, r: Receipt): Core {
    c.(mail := c.mail.(db := MarkedRead(c.mail.db, r.sender, r.upTo)))
  }

  function PacketHandled(p: Platform, c: Core, packet: Packet, hint: QString, now: Msecs): Core {
    if packet.kind == CHAT_MESSAGE then
      var chat := DecodeChat(packet.data, hint);
      ReceiptSent(p, ChatReceived(c, chat, packet.timestamp), chat.sender, Secs(packet.timestamp), now)
    else if packet.kind == READ_RECEIPT then ReceiptReceived(c, DecodeReceipt(packet.data, hint))
    else c
  }

  function PlainHandled(p: Platform, c: Core, plain: bytes, hint: QString, now: Msecs): Core {
    match Deserialize(plain)
    case None => c
    case Some(packet) => PacketHandled(p, c, packet, hint, now)
  }

  /** What can be made of a blob with the sessions at hand. */
  datatype Reading = NotYet | Broken | Plain(sender: QString, plain: bytes)

  /** The nickname before the first '|', if there is one. */
  function SenderOf(p: Platform, data: bytes): Option<QString> {
    var sep := IndexOf(data, BAR, 0);
    if sep <= 0 then None else Some(p.fromUtf8(data[..sep]))
  }

  function Read(p: Platform, c: Core, data: bytes): Reading {
    var sender := SenderOf(p, data);
    if sender.None? || !SessionOf(c, sender.value).ready then NotYet
    else
      var plain := Decrypt(p, SessionOf(c, sender.value), data[IndexOf(data, BAR, 0) + 1..]);
      if plain == [] then Broken else Plain(sender.value, plain)
  }

  function SenderMet(p: Platform, c: Core, data: bytes): Core {
    var sender := SenderOf(p, data);
    if sender.None? then c else CryptoFor(c, sender.value)
  }

  function DataReceived(p: Platform, c: Core, data: bytes, now: Msecs): Core {
    if data == [] then c
    else
      var n := |c.inbox.arrived|;
      var box := c.inbox.(arrived := c.inbox.arrived + [data]);
      var c1 := SenderMet(p, c, data);
      match Read(p, c, data)
      case NotYet => c1.(inbox := box.(buffer := box.buffer + [Held(data, n)]))
      case Broken => c1.(inbox := box.(dropped := box.dropped + {n}))
      case Plain(sender, plain) =>
        PlainHandled(p, c1.(inbox := box.(consumed := box.consumed + {n})), plain, sender, now)
  }

  // ── the retry pass ─────────────────────────────────────────────────────────

  function Retried(p: Platform, c: Core, h: Held, now: Msecs): Core {
    var c1 := SenderMet(p, c, h.data);
    match Read(p, c, h.data)
    case Plain(sender, plain) =>
      PlainHandled(p, c1.(inbox := c.inbox.(consumed := c.inbox.consumed + {h.arrival})), plain, sender, now)
    case _ => c1
  }

  datatype Pass = Pass(core: Core, remaining: seq<Held>)

  function RetryPass(p: Platform, c: Core, todo: seq<Held>, now: Msecs): Pass {
    if todo == [] then Pass(c, [])
    else
      var h := todo[|todo| - 1];
      var before := RetryPass(p, c, todo[..|todo| - 1], now);
      Pass(Retried(p, before.core, h, now),
           before.remaining + if Read(p, before.core, h.data).Plain? then [] else [h])
  }

  function PendingTried(p: Platform, c: Core, now: Msecs): Core {
    var pass := RetryPass(p, c, c.inbox.buffer, now);
    pass.core.(inbox := pass.core.inbox.(buffer := pass.remaining))
  }

  // ── draining the outbox ────────────────────────────────────────────────────

  function RelayEntries(p: Platform, me: Me, s: Session, drawn: nat, peer: QString,
                        packets: seq<bytes>): (e: seq<Outbound>)
    ensures |e| == |packets|
  {
    seq(|packets|, i requires 0 <= i < |packets| =>
      ToServer(Store(peer, RelayEnvelope(p, me, Encrypt(p, s, packets[i], me.nonces(drawn + i)))),
               FromOutbox(peer, packets[i])))
  }

  /** The packets flushed to a newly authenticated peer carry no `nick|` envelope. */
  function PeerEntries(p: Platform, me: Me, s: Session, drawn: nat, peer: QString,
                       packets: seq<bytes>): (e: seq<Outbound>)
    ensures |e| == |packets|
  {
    seq(|packets|, i requires 0 <= i < |packets| =>
      ToPeers(Encrypt(p, s, packets[i], me.nonces(drawn + i)), FromOutbox(peer, packets[i])))
  }

  function Broadcast(net: Net, entries: seq<Outbound>): Net {
    if entries == [] then net
    else
      var last := entries[|entries| - 1];
      var before := Broadcast(net, entries[..|entries| - 1]);
      if last.ToPeers? then DataSent(before, last.data) else before
  }

  function Drains(peer: QString, packets: seq<bytes>, lost: bool): (d: seq<Drain>)
    ensures |d| == |packets|
  {
    seq(|packets|, i requires 0 <= i < |packets| => Drain(peer, packets[i], lost))
  }

  function Drained(m: Mail, peer: QString, entries: seq<Outbound>, lost: bool): Mail {
    m.(db := Confirmed(m.db, peer), out := m.out + entries,
       trace := m.trace.(drained := m.trace.drained + Drains(peer, Peeked(m.db, peer), lost)))
  }

  /** `flush_pending_via_relay` deletes the rows even when it could not encrypt them. */
  function RelayFlushed(p: Platform, c: Core, peer: QString): Core {
    var packets, s := Peeked(c.mail.db, peer), SessionOf(c, peer);
    if packets == [] then c
    else if !s.ready then c.(mail := Drained(c.mail, peer, [], true))
    else
      c.(drawn := c.drawn + |packets|,
         mail := Drained(c.mail, peer, RelayEntries(p, c.me, s, c.drawn, peer, packets), false))
  }

  function PeerFlushed(p: Platform, c: Core, peer: QString): Core {
    var packets, s := Peeked(c.mail.db, peer), SessionOf(c, peer);
    if packets == [] then c
    else
      var entries := PeerEntries(p, c.me, s, c.drawn, peer, packets);
      c.(drawn := c.drawn + |packets|, net := Broadcast(c.net, entries), mail := Drained(c.mail, peer, entries, false))
  }

  // ── keys and verification ──────────────────────────────────────────────────

  function Keyed(p: Platform, c: Core, peer: QString, key: bytes): Core {
    var c1 := CryptoFor(c, peer);
    c1.(sessions := c1.sessions[peer := WithSecret(p, WithIdentity(SessionOf(c1, peer), c.me.pub, c.me.sec), key)])
  }

  function KeyedIfNeeded(p: Platform, c: Core, peer: QString, key: bytes): Core {
    if SessionOf(c, peer).ready then c else Keyed(p, c, peer, key)
  }

  function Authenticated(p: Platform, c: Core, nick: QString, key: bytes, now: Msecs): Core {
    var c1 := Keyed(p, c, nick, key);
    if !SessionOf(c1, nick).ready then c1
    else PeerFlushed(p, PendingTried(p, c1.(peers := RelaySet(c1.peers, nick, false)), now), nick)
  }

  function P2pFailed(p: Platform, c: Core, peer: QString): Core {
    RelayFlushed(p, CryptoFor(c.(peers := RelaySet(c.peers, peer, true)), peer), peer)
  }

  function HostDialled(p: Platform, c: Core, peer: QString): Core {
    var c1 := c.(net := Dialled(c.net, peer));
    if c.net.skipP2p then P2pFailed(p, c1, peer) else c1
  }

  function ClaimSettled(p: Platform, c: Core, nick: QString, key: bytes, now: Msecs): Core
    requires nick in c.verify.pending
  {
    var c1 := c.(verify := c.verify.(pending := c.verify.pending - {nick}));
    if c.verify.pending[nick] != key then c1.(net := RejectedPeer(c.net, nick))
    else
      var c2 := c1.(net := ConfirmedPeer(c.net, nick));
      if nick in c.net.pending then Authenticated(p, c2, nick, key, now) else c2
  }

  function ContactFound(p: Platform, c: Core, nick: QString, key: bytes, now: Msecs): Core {
    var unkeyed := !SessionOf(c, nick).ready;
    var c1 := if unkeyed then Keyed(p, c, nick, key) else c;
    if !SessionOf(c1, nick).ready then c1
    else
      var c2 := if unkeyed then PendingTried(p, c1, now) else c1;
      var c3 := c2.(peers := Touched(c2.peers, nick));
      if InRelay(c3, nick) then RelayFlushed(p, c3, nick)
      else if c3.net.connections == [] then HostDialled(p, c3, nick)
      else c3
  }

  /** The history of a lookup that was reported. */
  function LookupNoted(c: Core, nick: QString, key: bytes): Core {
    c.(verify := c.verify.(lookups := c.verify.lookups + {(nick, key)}, heard := c.verify.heard + 1))
  }

  /** One that was answered with nothing found, or lost with its connection. */
  function LookupPassed(c: Core): Core {
    c.(verify := c.verify.(heard := c.verify.heard + 1))
  }

  function PeerFound(p: Platform, c: Core, nick: QString, key: bytes, now: Msecs): Core {
    var c1 := LookupNoted(c, nick, key);
    if nick in c.verify.pending then ClaimSettled(p, c1, nick, key, now) else ContactFound(p, c1, nick, key, now)
  }

  // ── mode changes ───────────────────────────────────────────────────────────

  function AllRelay(peers: Peers): Peers {
    peers.(relay := map peer | peer in peers.relay :: true)
  }

  function FlushedIfReady(p: Platform, c: Core, peer: QString): Core {
    if Peeked(c.mail.db, peer) == [] then c
    else
      var c1 := CryptoFor(c, peer);
      if SessionOf(c1, peer).ready then RelayFlushed(p, c1, peer) else c1
  }

  function FlushedAll(p: Platform, c: Core, order: seq<QString>): Core {
    if order == [] then c else FlushedIfReady(p, FlushedAll(p, c, order[..|order| - 1]), order[|order| - 1])
  }

  function AllConnectionsLost(p: Platform, c: Core): Core {
    FlushedAll(p, c.(peers := AllRelay(c.peers)), c.peers.order)
  }

  function ConnectionLost(p: Platform, c: Core, conn: nat): Core {
    var c1 := c.(net := Disconnected(c.net, conn));
    if c1.net.connections == [] then AllConnectionsLost(p, c1) else c1
  }

  function Retry(c: Core, peer: QString): Core {
    if !InRelay(c, peer) then c
    else ServerSent(c.(peers := RelayLeft(c.peers, peer)), Find(peer), Unowned)
  }

  function RetriedAll(c: Core, order: seq<QString>): Core {
    if order == [] then c else Retry(RetriedAll(c, order[..|order| - 1]), order[|order| - 1])
  }

  // ── relayed messages ───────────────────────────────────────────────────────

  /** The parts of a relayed blob, split at its first two bars. */
  datatype Relay = Relay(sender: QString, key: bytes, encrypted: bytes)

  function ParseRelay(p: Platform, blob: bytes): Option<Relay> {
    var first := IndexOf(blob, BAR, 0);
    var second := IndexOf(blob, BAR, first + 1);
    if first == -1 || second == -1 then None
    else Some(Relay(p.fromUtf8(blob[..first]), FromHex(blob[first + 1..second]), blob[second + 1..]))
  }

  function RelayEntered(c: Core, peer: QString): Core {
    if InRelay(c, peer) then c
    else c.(peers := RelaySet(c.peers, peer, true), net := AllDropped(c.net))
  }

  function RelayReceived(p: Platform, c: Core, blob: bytes, now: Msecs): Core {
    match ParseRelay(p, blob)
    case None => DataReceived(p, c, blob, now)
    case Some(r) =>
      var c1 := KeyedIfNeeded(p, CryptoFor(c, r.sender), r.sender, r.key);
      var plain := Decrypt(p, SessionOf(c1, r.sender), r.encrypted);
      if plain == [] then c1 else PlainHandled(p, RelayEntered(c1, r.sender), plain, r.sender, now)
  }

  function Fetched(p: Platform, c: Core, blobs: seq<bytes>, now: Msecs): Core {
    if blobs == [] then c
    else RelayReceived(p, Fetched(p, c, blobs[..|blobs| - 1], now), blobs[|blobs| - 1], now)
  }

  // ── acknowledgements ───────────────────────────────────────────────────────

  /** The status a STORE's reply gives. */
  function Verdict(ok: bool): Status {
    if ok then MsgSent else MsgFailed
  }

  function Acked(m: Mail, status: Status): Mail {
    var m1 := m.(trace := m.trace.(answered := m.trace.answered + 1));
    if m.relayIds == [] then m1
    else m1.(relayIds := m.relayIds[1..], db := StatusUpdated(m.db, m.relayIds[0], status))
  }

  /** The next STORE to be answered never will be: its connection is gone. The core notices nothing. */
  function StoreMissed(m: Mail): Mail {
    var tags, n := StoreTags(m.out), m.trace.answered;
    var id := if n < |tags| && tags[n].Some? then [tags[n].value] else [];
    m.(trace := m.trace.(answered := n + 1, missed := m.trace.missed + id))
  }

  /** The message ids of the STOREs handed over, None for a STORE that no id waits on. */
  function StoreTags(out: seq<Outbound>): seq<Option<int>> {
    if out == [] then []
    else
      var last := out[|out| - 1];
      StoreTags(out[..|out| - 1]) +
        if last.ToServer? && last.cmd.Store?
        then [if last.origin.FromMessage? then Some(last.origin.id) else None]
        else []
  }

  // ── events ─────────────────────────────────────────────────────────────────

  /** The commands among the things handed over. */
  function CommandsIn(out: seq<Outbound>): seq<Command> {
    if out == [] then []
    else
      var last := out[|out| - 1];
      CommandsIn(out[..|out| - 1]) + if last.ToServer? then [last.cmd] else []
  }

  lemma CommandsInAppend(out: seq<Outbound>, e: Outbound)
    ensures CommandsIn(out + [e]) == CommandsIn(out) + if e.ToServer? then [e.cmd] else []
  {
    assert (out + [e])[..|out|] == out;
  }

  /** The nicknames asked about so far. */
  function Asked(c: Core): seq<QString> {
    Finds(CommandsIn(c.mail.out))
  }

  datatype Event =
    | Send(peer: QString, chat: Chat)
    | StoreReply(ok: bool)
    | StoreLost
    | LookupReply(nick: QString, key: bytes)
    | LookupMissed
    | LookupLost
    | FetchReply(blobs: seq<bytes>)
    | FindPeer(nick: QString)
    | DialPeer(peer: QString)
    | Accept
    | Data(conn: nat, data: bytes)
    | Opened(conn: nat)
    | Expired(conn: nat)
    | Closed(conn: nat)
    | NetworkDown
    | NetworkUp
    | Poll
    | RetryTimer
    | Reconnected
    | SeenBehindNat

  /**
   * Whether an event can happen: the server answers STOREs and FINDs in order, each at most once, unless one is
   * lost with its connection; and a found peer is reported under the nickname the bootstrap client remembers,
   * the one asked about last.
   */
  predicate Enabled(c: Core, e: Event) {
    match e
    case StoreReply(_) => c.mail.trace.answered < |StoreTags(c.mail.out)|
    case StoreLost => c.mail.trace.answered < |StoreTags(c.mail.out)|
    case LookupReply(nick, _) => c.verify.heard < |Asked(c)| && nick == Asked(c)[|Asked(c)| - 1]
    case LookupMissed => c.verify.heard < |Asked(c)|
    case LookupLost => c.verify.heard < |Asked(c)|
    case Data(conn, _) => conn in c.net.connections
    case Opened(conn) => conn in c.net.attempts
    case Expired(conn) => conn in c.net.attempts
    case _ => true
  }

  function ServerAsked(c: Core, cmd: Command): Core {
    if c.me.nick == [] then c else ServerSent(c, cmd, Unowned)
  }

  function Reregistered(c: Core): Core {
    var c1 := c.(net := c.net.(skipP2p := false));
    if c.me.port == 0 then c1 else ServerAsked(c1, Register(c.me.nick, c.me.port, c.me.pub))
  }

  function DataOn(p: Platform, c: Core, conn: nat, data: bytes, now: Msecs): Core {
    if conn in c.net.incoming && conn !in c.net.authenticated then
      match ParseHandshake(p, data)
      case None => c.(net := Removed(c.net, conn))
      case Some(h) =>
        ServerSent(c.(net := Claimed(c.net, conn, h),
                      verify := c.verify.(pending := c.verify.pending[h.nick := h.key])),
                   Find(h.nick), Unowned)
    else DataReceived(p, c, data, now)
  }

  function React(p: Platform, c: Core, e: Event, now: Msecs): Core
    requires Enabled(c, e)
  {
    match e
    case Send(peer, chat) => SendMessage(p, c, peer, chat, now)
    case StoreReply(ok) => c.(mail := Acked(c.mail, Verdict(ok)))
    case StoreLost => c.(mail := StoreMissed(c.mail))
    case LookupReply(nick, key) => PeerFound(p, c, nick, key, now)
    case LookupMissed => LookupPassed(c)
    case LookupLost => LookupPassed(c)
    case FetchReply(blobs) => Fetched(p, c, blobs, now)
    case FindPeer(nick) => ServerSent(c, Find(nick), Unowned)
    case DialPeer(peer) => HostDialled(p, c, peer)
    case Accept => c.(net := Accepted(c.net))
    case Data(conn, data) => DataOn(p, c, conn, data, now)
    case Opened(conn) => c.(net := DialOpened(c.net, conn, HandshakeBytes(p, c.me.nick, c.me.pub)))
    case Expired(conn) => P2pFailed(p, c.(net := DialExpired(c.net, conn)), c.net.attempts[conn])
    case Closed(conn) => ConnectionLost(p, c, conn)
    case NetworkDown => c.(net := AllDropped(c.net))
    case NetworkUp => ServerAsked(c.(net := AllDropped(c.net)), Fetch(c.me.nick))
    case Poll => ServerAsked(c, Fetch(c.me.nick))
    case RetryTimer => if c.me.nick == [] then c else RetriedAll(c, c.peers.order)
    case Reconnected => Reregistered(c)
    case SeenBehindNat => c.(net := c.net.(skipP2p := true))
  }

  datatype Timed = Timed(event: Event, now: Msecs)

  function Step(p: Platform, c: Core, t: Timed): Core {
    if Enabled(c, t.event) then React(p, c, t.event, t.now) else c
  }

  function Run(p: Platform, c: Core, events: seq<Timed>): Core {
    if events == [] then c else Step(p, Run(p, c, events[..|events| - 1]), events[|events| - 1])
  }

  /** A core just after login, with an empty store. */
  function Start(me: Me): Core {
    Core(me, map[], 0, PeerMap([], map[]), Inbox([], [], {}, {}), Verify(map[], {}, 0), NO_CONNECTIONS,
         Mail(Db(true, [], [], 1, 1), [], [], Trace([], [], 0, [], map[])))
  }
}
