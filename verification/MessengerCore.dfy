/**
 * The messenger core as an object over its store, its peer connections and its bootstrap client. Each
 * method is proved to move the state as the function of the same reaction in `Core` says.
 */
module MessengerCore {
  import opened Bytes
  import opened Platform
  import opened DataStream
  import opened Crypto
  import opened Protocol
  import B = Bootstrap
  import opened LocalDb
  import opened Network
  import opened S = Core
  import Clients

  class Messenger {
    const me: Me
    const db: LocalDb
    const network: NetworkManager
    const bootstrap: B.BootstrapClient
    var cryptoMap: map<QString, Session>
    var noncesDrawn: nat
    var peerState: Peers
    var undecryptable: seq<Held>
    var pendingVerification: map<QString, bytes>
    var pendingRelayIds: seq<int>
    var arrived: seq<bytes>
    ghost var consumed: set<nat>
    ghost var dropped: set<nat>
    ghost var lookups: set<(QString, bytes)>
    ghost var heard: nat
    ghost var out: seq<Outbound>
    ghost var trace: Trace

    ghost function Abs(): Core
      reads this, db, network
    {
      Core(me, cryptoMap, noncesDrawn, peerState, Inbox(undecryptable, arrived, consumed, dropped),
           Verify(pendingVerification, lookups, heard), network.Abs(), Mail(db.Abs(), pendingRelayIds, out, trace))
    }

    /**
     * What the bootstrap client was asked to send is what was handed over, command by command; it sends
     * each once and in order, and remembers the nickname asked about last.
     */
    ghost predicate Valid()
      reads this, network, bootstrap
    {
      && bootstrap.enqueued == CommandsIn(out) && network.nickname == me.nick
      && B.Conserved(bootstrap.Abs()) && B.RemembersLast(bootstrap.Abs())
    }

    /** What was handed over is what went out on either transport, then what still waits. */
    lemma HandedOverIsSent()
      requires Valid()
      ensures CommandsIn(out) == B.Commands(bootstrap.sent) + bootstrap.queue
    {
    }

    constructor (me: Me)
      ensures Valid() && Abs() == Start(me)
      ensures fresh(db) && fresh(network) && fresh(bootstrap)
    {
      this.me := me;
      db := new LocalDb(true);
      var n := new NetworkManager();
      n.nickname := me.nick;
      network := n;
      bootstrap := new B.BootstrapClient();
      cryptoMap, noncesDrawn, peerState, undecryptable := map[], 0, PeerMap([], map[]), [];
      pendingVerification, pendingRelayIds := map[], [];
      arrived, consumed, dropped, lookups, heard, out, trace := [], {}, {}, {}, 0, [], Trace([], [], 0, [], map[]);
    }

    method CryptoFor(peer: QString) returns (s: Session)
      requires Valid()
      modifies this
      ensures Valid() && Abs() == S.CryptoFor(old(Abs()), peer) && s == SessionOf(old(Abs()), peer)
      ensures out == old(out)
    {
      if peer !in cryptoMap { cryptoMap := cryptoMap[peer := NO_SESSION]; }
      return cryptoMap[peer];
    }

    /** `encrypt` with the next nonce of the generator. */
    method Encrypt(p: Platform, s: Session, plain: bytes) returns (encrypted: bytes)
      requires Valid()
      modifies this
      ensures Valid() && Abs() == old(Abs()).(drawn := old(noncesDrawn) + 1)
      ensures encrypted == Crypto.Encrypt(p, s, plain, me.nonces(old(noncesDrawn)))
    {
      encrypted := Crypto.Encrypt(p, s, plain, me.nonces(noncesDrawn));
      noncesDrawn := noncesDrawn + 1;
    }

    method StoreMessage(peer: QString, blob: bytes, ghost origin: Origin, now: Msecs)
      requires Valid()
      modifies this, bootstrap
      ensures Valid() && Abs() == ServerSent(old(Abs()), Store(peer, blob), origin)
    {
      CommandsInAppend(out, ToServer(Store(peer, blob), origin));
      hide CommandsIn, B.Submitted, B.Conserved, B.RemembersLast;
      SubmitKeeps(bootstrap.Abs(), Store(peer, blob), now);
      bootstrap.StoreMessage(peer, blob, now);
      out := out + [ToServer(Store(peer, blob), origin)];
    }

    method FindUser(nick: QString, now: Msecs)
      requires Valid()
      modifies this, bootstrap
      ensures Valid() && Abs() == ServerSent(old(Abs()), Find(nick), Unowned)
    {
      CommandsInAppend(out, ToServer(Find(nick), Unowned));
      hide CommandsIn, B.Submitted, B.Conserved, B.RemembersLast;
      SubmitKeeps(bootstrap.Abs(), Find(nick), now);
      bootstrap.FindUser(nick, now);
      out := out + [ToServer(Find(nick), Unowned)];
    }

    method SendData(data: bytes, ghost origin: Origin)
      requires Valid()
      modifies this, network
      ensures Valid() && Abs() == PeersSent(old(Abs()), data, origin)
    {
      CommandsInAppend(out, ToPeers(data, origin));
      hide CommandsIn, B.Conserved, B.RemembersLast, DataSent;
      network.SendData(data);
      out := out + [ToPeers(data, origin)];
    }

    /** Reading the state of a peer creates it. */
    method Touch(peer: QString)
      requires Valid()
      modifies this
      ensures Valid() && Abs() == old(Abs()).(peers := Touched(old(Abs()).peers, peer))
      ensures peer in peerState.relay && peerState.relay[peer] == InRelay(old(Abs()), peer)
    {
      hide CommandsIn, B.Conserved, B.RemembersLast;
      peerState := Touched(peerState, peer);
    }

    /** The common middle of `send_message` and `send_read_receipt`. */
    method Transmit(p: Platform, peer: QString, plain: bytes, ghost origin: Origin, now: Msecs) returns (route: Route)
      requires Valid()
      modifies this, network, bootstrap
      ensures Valid() && Abs() == Transmitted(p, old(Abs()), peer, plain, origin)
      ensures route == RouteTo(old(Abs()), peer)
    {
      hide Valid, Crypto.Encrypt, Touched, DataSent;
      var s := CryptoFor(peer);
      if !s.ready { return Queued; }
      var encrypted := Encrypt(p, s, plain);
      Touch(peer);
      if peerState.relay[peer] {
        var header := p.toUtf8(Joined<unit>(me.nick, BAR, ToHex(me.pub) + [BAR]));
        StoreMessage(peer, header + encrypted, origin, now);
        return Relayed;
      } else if network.connections != [] {
        SendData(p.toUtf8(me.nick + [BAR]) + encrypted, origin);
        return Direct;
      }
      return Queued;
    }

    method SendReadReceipt(p: Platform, peer: QString, upTo: int64, now: Msecs)
      requires Valid()
      modifies this, network, bootstrap
      ensures Valid() && Abs() == ReceiptSent(p, old(Abs()), peer, upTo, now)
    {
      hide Transmitted, CommandsIn, B.Conserved, B.RemembersLast, Serialize;
      var payload := EncodeReceipt(Receipt(me.nick, upTo));
      var bytes := Serialize(Packet(READ_RECEIPT, now, payload));
      var _ := Transmit(p, peer, bytes, Unowned, now);
    }

    method SendMessage(p: Platform, peer: QString, text: QString, replyId: int32, replyText: QString,
                       replySender: QString, now: Msecs)
      returns (id: int)
      requires Valid()
      modifies this, db, network, bootstrap
      ensures Valid()
      ensures Abs() == S.SendMessage(p, old(Abs()), peer, Chat(me.nick, text, replyId, replyText, replySender), now)
      ensures id == if Refused(old(Abs()), peer, text) then -1 else SavedId(old(Abs()).mail.db)
    {
      if text == [] || peer == [] || peer == me.nick { return -1; }
      hide Transmitted, CommandsIn, B.Conserved, B.RemembersLast, Saved, StatusUpdated, OutEnqueued, RouteTo, Serialize,
        EncodeChat, SavedId;
      var chat := Chat(me.nick, text, replyId, replyText, replySender);
      var bytes := Serialize(Packet(CHAT_MESSAGE, now, EncodeChat(chat)));
      id := db.SaveMessage(peer, chat, now, true);
      ghost var c1 := MessageSaved(old(Abs()), peer, chat, now);
      assert Abs() == c1;
      RouteSaved(old(Abs()), peer, chat, now);
      var route := Transmit(p, peer, bytes, FromMessage(id), now);
      RecordSent(peer, id, bytes, route);
    }

    /** The table updates after a message took its route. */
    method RecordSent(peer: QString, id: int, packet: bytes, route: Route)
      requires Valid()
      modifies this, db
      ensures Valid() && Abs() == old(Abs()).(mail := Recorded(old(Abs()).mail, peer, id, packet, route))
    {
      hide CommandsIn, B.Conserved, B.RemembersLast, StatusUpdated, OutEnqueued;
      match route {
        case Queued =>
          trace := if db.ready then trace.(queued := trace.queued + [OutRow(db.nextOut, peer, packet)],
                                           owner := trace.owner[db.nextOut := id])
                   else trace.(queued := trace.queued + []);
          var _ := db.EnqueueMessage(peer, packet);
          var _ := db.UpdateStatus(id, MsgPending);
        case Relayed =>
          pendingRelayIds := pendingRelayIds + [id];
          var _ := db.UpdateStatus(id, MsgPending);
        case Direct =>
          var _ := db.UpdateStatus(id, MsgSent);
      }
    }

    // ── receiving ────────────────────────────────────────────────────────────

    method HandleChatMessage(p: Platform, packet: Packet, hint: QString, now: Msecs)
      requires Valid() && packet.kind == CHAT_MESSAGE
      modifies this, db, network, bootstrap
      ensures Valid() && Abs() == PacketHandled(p, old(Abs()), packet, hint, now)
    {
      hide ReceiptSent, CommandsIn, B.Conserved, B.RemembersLast, Saved, DecodeChat;
      var chat := DecodeChat(packet.data, hint);
      var _ := db.SaveMessage(chat.sender, chat, packet.timestamp, false);
      SendReadReceipt(p, chat.sender, Secs(packet.timestamp), now);
    }

    method HandleReadReceipt(p: Platform, packet: Packet, hint: QString, now: Msecs)
      requires Valid() && packet.kind == READ_RECEIPT
      modifies this, db
      ensures Valid() && Abs() == PacketHandled(p, old(Abs()), packet, hint, now)
    {
      hide CommandsIn, B.Conserved, B.RemembersLast, MarkedRead, DecodeReceipt;
      var r := DecodeReceipt(packet.data, hint);
      var _ := db.MarkReadUpTo(r.sender, r.upTo);
    }

    /** Deserialise and dispatch to the handler of the packet's type, if it has one. */
    method HandlePlain(p: Platform, plain: bytes, hint: QString, now: Msecs)
      requires Valid()
      modifies this, db, network, bootstrap
      ensures Valid() && Abs() == PlainHandled(p, old(Abs()), plain, hint, now)
    {
      hide ReceiptSent, ReceiptReceived, CommandsIn, B.Conserved, B.RemembersLast, Deserialize, DecodeChat,
        DecodeReceipt;
      var packet := Deserialize(plain);
      if packet.Some? {
        if packet.value.kind == CHAT_MESSAGE {
          HandleChatMessage(p, packet.value, hint, now);
        } else if packet.value.kind == READ_RECEIPT {
          HandleReadReceipt(p, packet.value, hint, now);
        }
      }
    }

    /** The common head of `handle_data_received` and the retry loop. */
    method ReadBlob(p: Platform, data: bytes) returns (r: Reading)
      requires Valid()
      modifies this
      ensures Valid() && Abs() == SenderMet(p, old(Abs()), data) && r == Read(p, old(Abs()), data)
    {
      hide CommandsIn, B.Conserved, B.RemembersLast, Decrypt;
      var sep := IndexOf(data, BAR, 0);
      if sep <= 0 { return NotYet; }
      var sender := p.fromUtf8(data[..sep]);
      var s := CryptoFor(sender);
      if !s.ready { return NotYet; }
      var plain := Decrypt(p, s, data[sep + 1..]);
      return if plain == [] then Broken else Plain(sender, plain);
    }

    method HandleDataReceived(p: Platform, data: bytes, now: Msecs)
      requires Valid()
      modifies this, db, network, bootstrap
      ensures Valid() && Abs() == DataReceived(p, old(Abs()), data, now)
    {
      hide PlainHandled, Read, SenderMet, Valid;
      if data == [] { return; }
      var r := ReadBlob(p, data);
      SenderMetFrame(p, old(Abs()), data);
      NoteArrival(data, r);
      if r.Plain? { HandlePlain(p, r.plain, r.sender, now); }
    }

    /** A blob is kept for later, given up, or about to be handled. */
    method NoteArrival(data: bytes, r: Reading)
      requires Valid()
      modifies this
      ensures Valid() && Abs() == old(Abs()).(inbox := Noted(old(Abs()).inbox, data, r))
    {
      hide CommandsIn, B.Conserved, B.RemembersLast;
      var n := |arrived|;
      arrived := arrived + [data];
      match r {
        case NotYet => undecryptable := undecryptable + [Held(data, n)];
        case Broken => dropped := dropped + {n};
        case Plain(_, _) => consumed := consumed + {n};
      }
    }

    /** One buffered blob of a retry pass; true when it stays buffered. */
    method RetryOne(p: Platform, h: Held, now: Msecs) returns (keep: bool)
      requires Valid()
      modifies this, db, network, bootstrap
      ensures Valid() && Abs() == Retried(p, old(Abs()), h, now) && keep == !Read(p, old(Abs()), h.data).Plain?
    {
      hide PlainHandled, CommandsIn, B.Conserved, B.RemembersLast, Read, SenderMet;
      var r := ReadBlob(p, h.data);
      SenderMetFrame(p, old(Abs()), h.data);
      if r.Plain? {
        consumed := consumed + {h.arrival};
        HandlePlain(p, r.plain, r.sender, now);
      }
      return !r.Plain?;
    }

    method TryDecryptPending(p: Platform, now: Msecs)
      requires Valid()
      modifies this, db, network, bootstrap
      ensures Valid() && Abs() == PendingTried(p, old(Abs()), now)
    {
      hide Retried, Read, CommandsIn, B.Conserved, B.RemembersLast;
      var todo := undecryptable;
      if todo == [] { return; }
      ghost var c := Abs();
      var remaining: seq<Held> := [];
      var i := 0;
      while i < |todo|
        invariant 0 <= i <= |todo| && Valid()
        invariant RetryPass(p, c, todo[..i], now) == Pass(Abs(), remaining)
        modifies this, db, network, bootstrap
      {
        PrefixStep(todo, i);
        var keep := RetryOne(p, todo[i], now);
        if keep { remaining := remaining + [todo[i]]; }
        i := i + 1;
      }
      assert todo[..i] == todo;
      undecryptable := remaining;
    }

    // ── draining ─────────────────────────────────────────────────────────────

    method FlushPendingViaRelay(p: Platform, peer: QString, s: Session, now: Msecs)
      requires Valid() && s == SessionOf(Abs(), peer)
      modifies this, db, bootstrap
      ensures Valid() && Abs() == RelayFlushed(p, old(Abs()), peer)
    {
      hide Valid, Crypto.Encrypt, Peeked, Drained, RelayEnvelope;
      var some := db.HasPending(peer);
      if !some { return; }
      var packets := db.PeekOutbox(peer);
      ghost var c := Abs();
      var i := 0;
      while i < |packets|
        invariant 0 <= i <= |packets| && Valid() && (!s.ready ==> i == 0)
        invariant Abs() == c.(drawn := c.drawn + i,
                              mail := c.mail.(out := c.mail.out + RelayEntries(p, me, s, c.drawn, peer, packets[..i])))
        modifies this, bootstrap
      {
        if !s.ready { break; }
        RelayEntriesStep(p, me, s, c.drawn, peer, packets, i);
        RelayOne(p, peer, s, packets[i], now);
        i := i + 1;
      }
      assert packets[..i] == if s.ready then packets else [];
      Discharge(peer, !s.ready);
      DrainedAfter(c.mail, peer, RelayEntries(p, me, s, c.drawn, peer, packets[..i]), !s.ready);
    }

    /** The body of the relay flush loop. */
    method RelayOne(p: Platform, peer: QString, s: Session, packet: bytes, now: Msecs)
      requires Valid()
      modifies this, bootstrap
      ensures Valid()
      ensures var c := old(Abs());
              var blob := RelayEnvelope(p, me, Crypto.Encrypt(p, s, packet, me.nonces(c.drawn)));
              Abs() == ServerSent(c.(drawn := c.drawn + 1), Store(peer, blob), FromOutbox(peer, packet))
    {
      hide CommandsIn, B.Conserved, B.RemembersLast, Crypto.Encrypt, RelayEnvelope;
      var encrypted := Encrypt(p, s, packet);
      StoreMessage(peer, RelayEnvelope(p, me, encrypted), FromOutbox(peer, packet), now);
    }

    /** The body of the loop that broadcasts to an authenticated peer. */
    method BroadcastOne(p: Platform, peer: QString, s: Session, packet: bytes)
      requires Valid()
      modifies this, network
      ensures Valid()
      ensures var c := old(Abs());
              var blob := Crypto.Encrypt(p, s, packet, me.nonces(c.drawn));
              Abs() == PeersSent(c.(drawn := c.drawn + 1), blob, FromOutbox(peer, packet))
    {
      hide CommandsIn, B.Conserved, B.RemembersLast, Crypto.Encrypt, DataSent;
      var encrypted := Encrypt(p, s, packet);
      SendData(encrypted, FromOutbox(peer, packet));
    }

    /** `confirm_outbox`, with its packets recorded as drained. */
    method Discharge(peer: QString, ghost lost: bool)
      requires Valid()
      modifies this, db
      ensures Valid() && Abs() == old(Abs()).(mail := Drained(old(Abs()).mail, peer, [], lost))
    {
      hide CommandsIn, B.Conserved, B.RemembersLast, Drains, Peeked, Confirmed;
      trace := trace.(drained := trace.drained + Drains(peer, Peeked(db.Abs(), peer), lost));
      var _ := db.ConfirmOutbox(peer);
    }

    /** The flush at the end of the authentication slot: no `nick|` envelope here. */
    method FlushPendingToPeers(p: Platform, peer: QString, s: Session)
      requires Valid() && s == SessionOf(Abs(), peer)
      modifies this, db, network
      ensures Valid() && Abs() == PeerFlushed(p, old(Abs()), peer)
    {
      hide Valid, Crypto.Encrypt, Peeked, Drained, DataSent, Broadcast;
      assert Broadcast(network.Abs(), []) == network.Abs() by { NothingBroadcast(network.Abs()); }
      var some := db.HasPending(peer);
      if !some { return; }
      var packets := db.PeekOutbox(peer);
      ghost var c := Abs();
      var i := 0;
      while i < |packets|
        invariant 0 <= i <= |packets| && Valid()
        invariant var entries := PeerEntries(p, me, s, c.drawn, peer, packets[..i]);
                  Abs() == c.(drawn := c.drawn + i, net := Broadcast(c.net, entries),
                              mail := c.mail.(out := c.mail.out + entries))
        modifies this, network
      {
        PeerEntriesStep(p, me, s, c.drawn, peer, packets, i);
        BroadcastStep(c.net, PeerEntries(p, me, s, c.drawn, peer, packets[..i]),
                      ToPeers(Crypto.Encrypt(p, s, packets[i], me.nonces(c.drawn + i)), FromOutbox(peer, packets[i])));
        BroadcastOne(p, peer, s, packets[i]);
        i := i + 1;
      }
      assert packets[..i] == packets;
      Discharge(peer, false);
      DrainedAfter(c.mail, peer, PeerEntries(p, me, s, c.drawn, peer, packets), false);
    }

    // ── keys and verification ────────────────────────────────────────────────

    /** `set_identity` and `compute_shared_secret` on a peer's manager. */
    method Agree(p: Platform, peer: QString, key: bytes) returns (s: Session)
      requires Valid()
      modifies this
      ensures Valid() && Abs() == Keyed(p, old(Abs()), peer, key) && s == SessionOf(Abs(), peer)
      ensures out == old(out)
    {
      hide CommandsIn, B.Conserved, B.RemembersLast, WithSecret;
      s := CryptoFor(peer);
      s := WithSecret(p, WithIdentity(s, me.pub, me.sec), key);
      cryptoMap := cryptoMap[peer := s];
    }

    method OnIncomingPeerAuthenticated(p: Platform, nick: QString, key: bytes, now: Msecs)
      requires Valid()
      modifies this, db, network, bootstrap
      ensures Valid() && Abs() == Authenticated(p, old(Abs()), nick, key, now)
    {
      hide CommandsIn, B.Conserved, B.RemembersLast, Keyed, PendingTried, PeerFlushed, RelaySet, SessionOf;
      var s := Agree(p, nick, key);
      if !s.ready { return; }
      peerState := RelaySet(peerState, nick, false);
      TryDecryptPending(p, now);
      FlushPendingToPeers(p, nick, SessionHere(nick));
    }

    function SessionHere(peer: QString): (s: Session)
      reads this, db, network
      ensures s == SessionOf(Abs(), peer)
    {
      if peer in cryptoMap then cryptoMap[peer] else NO_SESSION
    }

    method OnP2pFailed(p: Platform, peer: QString, now: Msecs)
      requires Valid()
      modifies this, db, bootstrap
      ensures Valid() && Abs() == P2pFailed(p, old(Abs()), peer)
    {
      hide CommandsIn, B.Conserved, B.RemembersLast, RelayFlushed, RelaySet;
      peerState := RelaySet(peerState, peer, true);
      var s := CryptoFor(peer);
      FlushPendingViaRelay(p, peer, s, now);
    }

    method ConnectToHost(p: Platform, peer: QString, now: Msecs)
      requires Valid()
      modifies this, db, network, bootstrap
      ensures Valid() && Abs() == HostDialled(p, old(Abs()), peer)
    {
      hide CommandsIn, B.Conserved, B.RemembersLast, P2pFailed, Dialled;
      var failed := network.ConnectToHost(peer);
      if failed { OnP2pFailed(p, peer, now); }
    }

    method OnPeerFound(p: Platform, nick: QString, key: bytes, now: Msecs)
      requires Valid()
      modifies this, db, network, bootstrap
      ensures Valid() && Abs() == PeerFound(p, old(Abs()), nick, key, now)
    {
      hide Valid, ClaimSettled, ContactFound;
      NoteLookup(nick, key);
      if nick in pendingVerification {
        SettleClaim(p, nick, key, now);
      } else {
        OnContactFound(p, nick, key, now);
      }
    }

    ghost method NoteLookup(nick: QString, key: bytes)
      requires Valid()
      modifies this
      ensures Valid() && Abs() == LookupNoted(old(Abs()), nick, key)
    {
      hide CommandsIn, B.Conserved, B.RemembersLast;
      lookups, heard := lookups + {(nick, key)}, heard + 1;
    }

    /** The first part of `on_peer_found`: a peer that connected to us is rejected or confirmed. */
    method SettleClaim(p: Platform, nick: QString, key: bytes, now: Msecs)
      requires Valid() && nick in pendingVerification
      modifies this, db, network, bootstrap
      ensures Valid() && Abs() == ClaimSettled(p, old(Abs()), nick, key, now)
    {
      hide CommandsIn, B.Conserved, B.RemembersLast, Authenticated, RejectedPeer, ConfirmedPeer;
      var claimed := pendingVerification[nick];
      pendingVerification := pendingVerification - {nick};
      if claimed != key {
        network.RejectIncomingPeer(nick);
        return;
      }
      var authentic := network.ConfirmIncomingPeer(nick);
      hide Valid;
      if authentic { OnIncomingPeerAuthenticated(p, nick, key, now); }
    }

    /** The rest of `on_peer_found`, for a peer that did not connect to us. */
    method OnContactFound(p: Platform, nick: QString, key: bytes, now: Msecs)
      requires Valid()
      modifies this, db, network, bootstrap
      ensures Valid() && Abs() == ContactFound(p, old(Abs()), nick, key, now)
    {
      hide CommandsIn, B.Conserved, B.RemembersLast, Keyed, PendingTried, RelayFlushed, HostDialled, RelaySet;
      if !SessionHere(nick).ready {
        var s := Agree(p, nick, key);
        if !s.ready { return; }
        TryDecryptPending(p, now);
      }
      peerState := Touched(peerState, nick);
      if peerState.relay[nick] {
        FlushPendingViaRelay(p, nick, SessionHere(nick), now);
        return;
      }
      if network.connections == [] {
        ConnectToHost(p, nick, now);
      }
    }

    // ── mode changes ─────────────────────────────────────────────────────────

    method OnAllConnectionsLost(p: Platform, now: Msecs)
      requires Valid()
      modifies this, db, bootstrap
      ensures Valid() && Abs() == AllConnectionsLost(p, old(Abs()))
    {
      hide CommandsIn, B.Conserved, B.RemembersLast, FlushedIfReady;
      peerState := AllRelay(peerState);
      ghost var c := Abs();
      var order := peerState.order;
      var i := 0;
      while i < |order|
        invariant 0 <= i <= |order| && Valid()
        invariant Abs() == FlushedAll(p, c, order[..i])
        modifies this, db, bootstrap
      {
        PrefixStep(order, i);
        FlushIfReady(p, order[i], now);
        i := i + 1;
      }
      assert order[..i] == order;
    }

    method FlushIfReady(p: Platform, peer: QString, now: Msecs)
      requires Valid()
      modifies this, db, bootstrap
      ensures Valid() && Abs() == FlushedIfReady(p, old(Abs()), peer)
    {
      hide CommandsIn, B.Conserved, B.RemembersLast, RelayFlushed, Peeked;
      var some := db.HasPending(peer);
      if !some { return; }
      var s := CryptoFor(peer);
      if !s.ready { return; }
      FlushPendingViaRelay(p, peer, s, now);
    }

    method OnDisconnected(p: Platform, conn: nat, now: Msecs)
      requires Valid()
      modifies this, db, network, bootstrap
      ensures Valid() && Abs() == ConnectionLost(p, old(Abs()), conn)
    {
      hide CommandsIn, B.Conserved, B.RemembersLast, AllConnectionsLost, Disconnected;
      var allLost := network.ConnectionClosed(conn);
      if allLost { OnAllConnectionsLost(p, now); }
    }

    method RetryP2pConnections(now: Msecs)
      requires Valid()
      modifies this, bootstrap
      ensures Valid() && Abs() == if me.nick == [] then old(Abs()) else RetriedAll(old(Abs()), old(Abs()).peers.order)
    {
      if me.nick == [] { return; }
      hide CommandsIn, B.Conserved, B.RemembersLast;
      ghost var c := Abs();
      var order := peerState.order;
      var i := 0;
      while i < |order|
        invariant 0 <= i <= |order| && Valid()
        invariant Abs() == RetriedAll(c, order[..i])
        modifies this, bootstrap
      {
        PrefixStep(order, i);
        var peer := order[i];
        if peer in peerState.relay && peerState.relay[peer] {
          peerState := RelayLeft(peerState, peer);
          FindUser(peer, now);
        }
        i := i + 1;
      }
      assert order[..i] == order;
    }

    // ── relayed messages, replies, incoming connections ──────────────────────

    method OnMessagesFetched(p: Platform, blobs: seq<bytes>, now: Msecs)
      requires Valid()
      modifies this, db, network, bootstrap
      ensures Valid() && Abs() == Fetched(p, old(Abs()), blobs, now)
    {
      hide CommandsIn, B.Conserved, B.RemembersLast, RelayReceived;
      ghost var c := Abs();
      var i := 0;
      while i < |blobs|
        invariant 0 <= i <= |blobs| && Valid()
        invariant Abs() == Fetched(p, c, blobs[..i], now)
        modifies this, db, network, bootstrap
      {
        PrefixStep(blobs, i);
        HandleRelayed(p, blobs[i], now);
        i := i + 1;
      }
      assert blobs[..i] == blobs;
    }

    /** The loop body of the `messages_fetched` slot. */
    method HandleRelayed(p: Platform, blob: bytes, now: Msecs)
      requires Valid()
      modifies this, db, network, bootstrap
      ensures Valid() && Abs() == RelayReceived(p, old(Abs()), blob, now)
    {
      hide Valid, DataReceived, PlainHandled, Keyed, Decrypt, RelayEntered, FromHex, IndexOf;
      var first := IndexOf(blob, BAR, 0);
      var second := IndexOf(blob, BAR, first + 1);
      if first == -1 || second == -1 {
        HandleDataReceived(p, blob, now);
        return;
      }
      var sender, key, encrypted := p.fromUtf8(blob[..first]), FromHex(blob[first + 1..second]), blob[second + 1..];
      var s := CryptoFor(sender);
      if !s.ready {
        s := Agree(p, sender, key);
      }
      var plain := Decrypt(p, s, encrypted);
      if plain != [] {
        EnterRelay(sender);
        HandlePlain(p, plain, sender, now);
      }
    }

    /** The sender goes into relay mode, and peer connections are given up, unless it was there already. */
    method EnterRelay(sender: QString)
      requires Valid()
      modifies this, network
      ensures Valid() && Abs() == RelayEntered(old(Abs()), sender)
    {
      hide CommandsIn, B.Conserved, B.RemembersLast, RelaySet, AllDropped;
      if !(sender in peerState.relay && peerState.relay[sender]) {
        peerState := RelaySet(peerState, sender, true);
        network.DisconnectFromHost();
      }
    }

    /** The slots of `store_confirmed` and `store_failed`. */
    method OnStoreReply(ok: bool)
      requires Valid()
      modifies this, db
      ensures Valid() && Abs() == old(Abs()).(mail := Acked(old(Abs()).mail, Verdict(ok)))
    {
      hide CommandsIn, B.Conserved, B.RemembersLast, StatusUpdated;
      trace := trace.(answered := trace.answered + 1);
      if pendingRelayIds != [] {
        var id := pendingRelayIds[0];
        pendingRelayIds := pendingRelayIds[1..];
        var _ := db.UpdateStatus(id, Verdict(ok));
      }
    }

    /** Data on a connection: a handshake to verify, or a blob. */
    method OnConnectionData(p: Platform, conn: nat, data: bytes, now: Msecs)
      requires Valid()
      modifies this, db, network, bootstrap
      ensures Valid() && Abs() == DataOn(p, old(Abs()), conn, data, now)
    {
      hide CommandsIn, B.Conserved, B.RemembersLast, DataReceived, ParseHandshake, Claimed, Removed;
      if conn in network.incoming && conn !in network.authenticated {
        var claim := network.HandleHandshake(p, conn, data);
        if claim.Some? {
          pendingVerification := pendingVerification[claim.value.nick := claim.value.key];
          FindUser(claim.value.nick, now);
        }
      } else {
        HandleDataReceived(p, data, now);
      }
    }

    method OnDialTimeout(p: Platform, conn: nat, now: Msecs)
      requires Valid() && conn in network.attempts
      modifies this, db, network, bootstrap
      ensures var c := old(Abs());
              Valid() && Abs() == P2pFailed(p, c.(net := DialExpired(c.net, conn)), c.net.attempts[conn])
    {
      hide CommandsIn, B.Conserved, B.RemembersLast, P2pFailed, DialExpired;
      var peer := network.attempts[conn];
      network.DialTimeout(conn);
      OnP2pFailed(p, peer, now);
    }

    method PollRelayMessages(now: Msecs)
      requires Valid()
      modifies this, bootstrap
      ensures Valid() && Abs() == ServerAsked(old(Abs()), Fetch(me.nick))
    {
      if me.nick == [] { return; }
      WakeServer();
      FetchMessages(now);
    }

    /** `ensure_connected` hands over nothing. */
    method WakeServer()
      requires Valid()
      modifies bootstrap
      ensures Valid() && Abs() == old(Abs())
    {
      hide CommandsIn, B.Ensured, B.Conserved, B.RemembersLast;
      StepKeeps(bootstrap.Abs(), B.Ensure);
      EnsureSubmits(bootstrap.Abs());
      bootstrap.EnsureConnected();
    }

    method FetchMessages(now: Msecs)
      requires Valid()
      modifies this, bootstrap
      ensures Valid() && Abs() == ServerSent(old(Abs()), Fetch(me.nick), Unowned)
    {
      CommandsInAppend(out, ToServer(Fetch(me.nick), Unowned));
      hide CommandsIn, B.Submitted, B.Conserved, B.RemembersLast;
      SubmitKeeps(bootstrap.Abs(), Fetch(me.nick), now);
      bootstrap.FetchMessages(me.nick, now);
      out := out + [ToServer(Fetch(me.nick), Unowned)];
    }

    // ── the bootstrap client's signals ───────────────────────────────────────

    /** A transport comes up. From the second time on the core registers again, before the queue goes out. */
    method OnServerConnected(via: B.Via, now: Msecs)
      requires Valid() && Clients.Awaited(bootstrap.Abs(), via)
      modifies this, network, bootstrap
      ensures Valid() && Abs() == if old(bootstrap.firstConnect) then old(Abs()) else Reregistered(old(Abs()))
    {
      ghost var b := bootstrap.Abs();
      hide CommandsIn, B.Conserved, B.RemembersLast, B.OnConnected, Clients.CameUp;
      var reply := Clients.Registration(me);
      if !bootstrap.firstConnect {
        network.SetSkipP2p(false);
        if reply.Some? {
          CommandsInAppend(out, ToServer(reply.value, Unowned));
          out := out + [ToServer(reply.value, Unowned)];
        }
      }
      Clients.ConnectSubmits(b, via, now, reply);
      ConnectKeeps(b, via, now, reply);
      if via.Tcp? { bootstrap.TcpConnected(now, reply); } else { bootstrap.WsConnected(now, reply); }
    }

    /** `parse_response` and the slot of whatever signal it emits. */
    method OnLine(p: Platform, line: QString, local: bool, now: Msecs)
      requires Valid()
      modifies this, db, network, bootstrap
      ensures Valid()
      ensures Slotted(p, Clients.EventOf(Clients.Parsed(old(bootstrap.Abs()), line), local), old(Abs()), Abs(), now)
    {
      hide CommandsIn, B.Conserved, B.RemembersLast, ParseResponse, B.Step, Slotted, Clients.EventOf;
      StepKeeps(bootstrap.Abs(), B.Response(now));
      Clients.TransportSubmits(bootstrap.Abs(), B.Response(now));
      var s := bootstrap.HandleLine(line, now);
      SlotReacts(p, Abs(), s, local, now);
      hide Slot;
      OnSignal(p, s, local, now);
    }

    /** The slots of the signals. */
    method OnSignal(p: Platform, s: Option<Signal>, local: bool, now: Msecs)
      requires Valid()
      modifies this, db, network, bootstrap
      ensures Valid() && Abs() == Slot(p, old(Abs()), s, local, now)
    {
      hide CommandsIn, B.Conserved, B.RemembersLast, PeerFound, Fetched, Acked;
      match s {
        case Some(UserFound(nick, _, _, key)) => OnPeerFound(p, nick, key, now);
        case Some(UserNotFound(_)) => heard := heard + 1;
        case Some(StoreConfirmed) => OnStoreReply(true);
        case Some(StoreFailed(_)) => OnStoreReply(false);
        case Some(MessagesFetched(blobs)) => OnMessagesFetched(p, blobs, now);
        case Some(Registered(_)) => if !local { network.SetSkipP2p(true); }
        case _ =>
      }
    }
  }

  function Slot(p: Platform, c: Core, s: Option<Signal>, local: bool, now: Msecs): Core {
    match s
    case Some(UserFound(nick, _, _, key)) => PeerFound(p, c, nick, key, now)
    case Some(UserNotFound(_)) => LookupPassed(c)
    case Some(StoreConfirmed) => c.(mail := Acked(c.mail, Verdict(true)))
    case Some(StoreFailed(_)) => c.(mail := Acked(c.mail, Verdict(false)))
    case Some(MessagesFetched(blobs)) => Fetched(p, c, blobs, now)
    case Some(Registered(_)) => if local then c else c.(net := c.net.(skipP2p := true))
    case _ => c
  }

  lemma SlotReacts(p: Platform, c: Core, s: Option<Signal>, local: bool, now: Msecs)
    ensures Slotted(p, Clients.EventOf(s, local), c, Slot(p, c, s, local, now), now)
  {
    hide PeerFound, Fetched, Acked, Enabled;
  }

  /** From `c` to `d` the core reacted to the event, if there was one. */
  ghost predicate Slotted(p: Platform, e: Option<Event>, c: Core, d: Core, now: Msecs) {
    if e.None? then d == c else Enabled(c, e.value) ==> d == React(p, c, e.value, now)
  }

  lemma StepKeeps(b: B.Boot, e: B.Event)
    requires B.Conserved(b) && B.RemembersLast(b)
    ensures B.Conserved(B.Step(b, e)) && B.RemembersLast(B.Step(b, e))
  {
    B.StepConserves(b, e);
    B.StepRemembers(b, e);
  }

  lemma SubmitKeeps(b: B.Boot, cmd: Command, now: int)
    requires B.Conserved(b) && B.RemembersLast(b)
    ensures B.Conserved(B.Submitted(b, cmd, now)) && B.RemembersLast(B.Submitted(b, cmd, now))
  {
    StepKeeps(b, B.Submit(cmd, now));
  }

  lemma EnsureSubmits(b: B.Boot)
    ensures B.Step(b, B.Ensure) == B.Ensured(b) && B.Ensured(b).enqueued == b.enqueued
  {
  }

  lemma ConnectKeeps(b: B.Boot, via: B.Via, now: Msecs, reply: Option<Command>)
    requires B.Conserved(b) && B.RemembersLast(b) && Clients.Awaited(b, via)
    ensures var d := Clients.CameUp(b, via, now, reply);
            && B.Conserved(d) && B.RemembersLast(d)
            && d == B.OnConnected(if via.Tcp? then B.TcpOpened(b) else B.WsOpened(b), now, reply)
  {
    hide B.Conserved, B.RemembersLast, B.OnConnected;
    StepKeeps(b, if via.Tcp? then B.TcpUp(now, reply) else B.WsUp(now, reply));
  }

  /** The inbox after a blob that could be read like this arrived. */
  function Noted(box: Inbox, data: bytes, r: Reading): Inbox {
    var n, met := |box.arrived|, box.(arrived := box.arrived + [data]);
    match r
    case NotYet => met.(buffer := box.buffer + [Held(data, n)])
    case Broken => met.(dropped := box.dropped + {n})
    case Plain(_, _) => met.(consumed := box.consumed + {n})
  }

  lemma PeerEntriesStep(p: Platform, me: Me, s: Session, drawn: nat, peer: QString, packets: seq<bytes>, i: nat)
    requires i < |packets|
    ensures PeerEntries(p, me, s, drawn, peer, packets[..i + 1])
         == PeerEntries(p, me, s, drawn, peer, packets[..i])
            + [ToPeers(Crypto.Encrypt(p, s, packets[i], me.nonces(drawn + i)), FromOutbox(peer, packets[i]))]
  {
    hide Crypto.Encrypt;
  }

  lemma BroadcastStep(net: Net, entries: seq<Outbound>, e: Outbound)
    requires e.ToPeers?
    ensures Broadcast(net, entries + [e]) == DataSent(Broadcast(net, entries), e.data)
  {
    hide DataSent;
    assert (entries + [e])[..|entries|] == entries;
  }

  lemma NothingBroadcast(net: Net)
    ensures Broadcast(net, []) == net
  {
  }

  lemma DrainedAfter(m: Mail, peer: QString, entries: seq<Outbound>, lost: bool)
    ensures Drained(m.(out := m.out + entries), peer, [], lost) == Drained(m, peer, entries, lost)
  {
    hide Peeked, Confirmed, Drains;
    assert m.out + entries + [] == m.out + entries;
  }

  lemma SenderMetFrame(p: Platform, c: Core, data: bytes)
    ensures SenderMet(p, c, data) == c.(sessions := SenderMet(p, c, data).sessions)
  {
  }

  lemma PrefixStep<T>(s: seq<T>, i: nat)
    requires i < |s|
    ensures s[..i + 1][..i] == s[..i] && s[..i + 1][i] == s[i]
  {
  }

  lemma RelayEntriesStep(p: Platform, me: Me, s: Session, drawn: nat, peer: QString, packets: seq<bytes>, i: nat)
    requires i < |packets|
    ensures RelayEntries(p, me, s, drawn, peer, packets[..i + 1])
         == RelayEntries(p, me, s, drawn, peer, packets[..i])
            + [ToServer(Store(peer, RelayEnvelope(p, me, Crypto.Encrypt(p, s, packets[i], me.nonces(drawn + i)))),
                        FromOutbox(peer, packets[i]))]
  {
    hide RelayEnvelope, Crypto.Encrypt;
  }

  lemma RouteSaved(c: Core, peer: QString, chat: Chat, now: Msecs)
    ensures RouteTo(MessageSaved(c, peer, chat, now), peer) == RouteTo(c, peer)
  {
  }
}
