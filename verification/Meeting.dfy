/**
 * Two clients none of whose sessions was mistakenly keyed: what they can rely on, up to a first message
 * from login on.
 */
module Meeting {
  import opened Bytes
  import opened Platform
  import opened DataStream
  import opened Crypto
  import opened Protocol
  import opened LocalDb
  import opened Network
  import opened Core
  import opened MailInvariants
  import opened CoreRuns
  import opened KeyRuns
  import opened EndToEnd

  /** A key pair of one's own, listed under a nickname both envelopes and a receipt can carry. */
  ghost predicate Identity(p: Platform, keys: Directory, me: Me) {
    && Nameable(me.nick) && 2 * |me.nick| + 12 < NULL_SIZE && Nonces(me)
    && OwnsKey(p, me) && keys(me.nick) == me.pub
  }

  /** A client in good order at a time. */
  ghost predicate WellKept(p: Platform, keys: Directory, c: Core, now: Msecs) {
    Identity(p, keys, c.me) && Invariant(c, now) && KeysAgree(p, keys, c)
  }

  /** Every run from login without a mistaken event, with a clock that does not run backwards, ends in one. */
  lemma ClientReachable(p: Platform, keys: Directory, me: Me, events: seq<Timed>, t: Msecs)
    requires Identity(p, keys, me) && !MistakenSomewhere(p, keys, Start(me), events) && InTime(events, t)
    ensures WellKept(p, keys, Run(p, Start(me), events), EndTime(events, t))
  {
    hide Run, Identity, Invariant, KeysAgree, MistakenSomewhere, InTime, EndTime, DiscardsSomewhere, AnyLost,
      AlwaysKeepsKeys;
    ReachableSound(p, me, events, t);
    StartAgrees(p, keys, me);
    RunKeepsKeys(p, keys, Start(me), events);
  }

  /** Two such clients hold matching sessions as soon as both hold one. */
  lemma ClientsLinked(p: Platform, keys: Directory, a: Core, b: Core)
    requires KxLaw(p) && KeysAgree(p, keys, a) && KeysAgree(p, keys, b) && a.me.pub != b.me.pub
    requires Identity(p, keys, a.me) && Identity(p, keys, b.me)
    requires SessionOf(a, b.me.nick).ready && SessionOf(b, a.me.nick).ready
    ensures Linked(SessionOf(a, b.me.nick), SessionOf(b, a.me.nick))
  {
    hide Exchange, SessionOf, KxLaw, Nameable, Nonces;
    assert AgreedOrNone(p, a, b.me.nick, keys(b.me.nick)) && AgreedOrNone(p, b, a.me.nick, keys(a.me.nick));
    RolesCross(p, a.me.sec, b.me.sec);
  }

  /** Sending agrees no keys. */
  lemma SendKeepsKeys(p: Platform, keys: Directory, c: Core, peer: QString, chat: Chat, now: Msecs)
    requires KeysAgree(p, keys, c)
    ensures KeepsKeys(p, keys, c, SendMessage(p, c, peer, chat, now))
  {
    hide KeysAgree, KeepsKeys, SendMessage;
    ReactKeepsKeys(p, keys, c, Send(peer, chat), now);
  }

  /** After a message is sent and any events but mistaken ones, the sender still holds the keys it sent under. */
  lemma LaterKeys(p: Platform, keys: Directory, a: Core, peer: QString, chat: Chat, at: Msecs, events: seq<Timed>)
    requires KeysAgree(p, keys, a) && SessionOf(a, peer).ready
    requires !MistakenSomewhere(p, keys, SendMessage(p, a, peer, chat, at), events)
    ensures SameKeying(SessionOf(a, peer), SessionOf(Run(p, SendMessage(p, a, peer, chat, at), events), peer))
  {
    hide KeysAgree, KeepsKeys, SendMessage, Run, MistakenSomewhere, SessionOf, AlwaysKeepsKeys;
    var a1 := SendMessage(p, a, peer, chat, at);
    SendKeepsKeys(p, keys, a, peer, chat, at);
    KeepsAgree(p, keys, a, a1);
    RunKeepsKeys(p, keys, a1, events);
    KeysChain(p, keys, a, a1, Run(p, a1, events));
    SameKeys(p, keys, a, Run(p, a1, events), peer);
  }

  /**
   * Between any two such clients a direct message is handled as sent, and whatever the sender sees
   * meanwhile, short of a mistaken key, the receipt marks the row of that message and every earlier one as read.
   */
  lemma DirectExchange(p: Platform, keys: Directory, a: Core, b: Core, chat: Chat, t: Msecs, at: Msecs,
                       events: seq<Timed>, handledAt: Msecs, now: Msecs)
    requires Laws(p) && WellKept(p, keys, a, t) && WellKept(p, keys, b, t) && a.me.pub != b.me.pub
    requires t <= at && !Refused(a, b.me.nick, chat.text) && |EncodeChat(chat.(sender := a.me.nick))| < NULL_SIZE
    requires RouteTo(a, b.me.nick) == Direct && RouteTo(b, a.me.nick) != Queued
    requires InTime(events, at) && EndTime(events, at) <= now
    requires !MistakenSomewhere(p, keys, SendMessage(p, a, b.me.nick, chat, at), events)
    ensures var sent := chat.(sender := a.me.nick);
            var blob := DirectBlob(p, a, b.me.nick, MessageBytes(sent, at));
            var c := DataReceived(p, b, blob, handledAt);
            var later := Run(p, SendMessage(p, a, b.me.nick, chat, at), events);
            && SendMessage(p, a, b.me.nick, chat, at).net == DataSent(a.net, blob)
            && |c.mail.out| == |b.mail.out| + 1
            && MessageRead(Received(p, later, c.mail.out[|b.mail.out|], now).mail.db.messages, |a.mail.db.messages|,
                           b.me.nick, sent, at)
  {
    hide KeysAgree, Invariant, SendMessage, Run, MistakenSomewhere, SessionOf, KxLaw, BoxLaw, Utf8Law, Nameable, Nonces,
      OwnsKey, InTime, EndTime, Refused, EncodeChat, MessageRead, Received, DataReceived, DirectBlob, DataSent;
    ClientsLinked(p, keys, a, b);
    LaterKeys(p, keys, a, b.me.nick, chat, at, events);
    DirectRoundTrip(p, a, b, chat, t, at, events, handledAt, now);
  }

  /** The same through the relay, whether or not the receiver ever heard of the sender. */
  lemma RelayExchange(p: Platform, keys: Directory, a: Core, b: Core, chat: Chat, t: Msecs, at: Msecs,
                      events: seq<Timed>, handledAt: Msecs, now: Msecs)
    requires Laws(p) && WellKept(p, keys, a, t) && WellKept(p, keys, b, t) && a.me.pub != b.me.pub
    requires t <= at && !Refused(a, b.me.nick, chat.text) && |EncodeChat(chat.(sender := a.me.nick))| < NULL_SIZE
    requires RouteTo(a, b.me.nick) == Relayed
    requires InTime(events, at) && EndTime(events, at) <= now
    requires !MistakenSomewhere(p, keys, SendMessage(p, a, b.me.nick, chat, at), events)
    ensures var sent := chat.(sender := a.me.nick);
            var sending := SendMessage(p, a, b.me.nick, chat, at);
            var blob := RelayBlob(p, a, b.me.nick, MessageBytes(sent, at));
            var c := RelayReceived(p, b, blob, handledAt);
            && sending.mail.out == a.mail.out + [ToServer(Store(b.me.nick, blob), FromMessage(a.mail.db.nextMessage))]
            && |c.mail.out| == |b.mail.out| + 1 && c.mail.out[|b.mail.out|].ToServer?
            && MessageRead(Received(p, Run(p, sending, events), c.mail.out[|b.mail.out|], now).mail.db.messages,
                           |a.mail.db.messages|, b.me.nick, sent, at)
  {
    hide Invariant, SendMessage, Run, MistakenSomewhere, SessionOf, KxLaw, BoxLaw, Utf8Law, Nameable, Nonces, OwnsKey,
      InTime, EndTime, Refused, EncodeChat, MessageRead, Received, RelayReceived, RelayBlob, AgreedOrNone;
    assert AgreedOrNone(p, a, b.me.nick, keys(b.me.nick)) && AgreedOrNone(p, b, a.me.nick, keys(a.me.nick));
    hide KeysAgree;
    LaterKeys(p, keys, a, b.me.nick, chat, at, events);
    RelayRoundTrip(p, a, b, chat, t, at, events, handledAt, now);
  }

  // ── from login to the first message ────────────────────────────────────────

  /** A nickname the handshake line can carry, and a full-sized key. */
  predicate Presentable(p: Platform, me: Me) {
    && WellFormed(me.nick) && me.nick != [] && |me.pub| == KEY_BYTES
    && p.toUtf8(me.nick) != [] && COLON !in p.toUtf8(me.nick) && !IsSpace(p.toUtf8(me.nick)[0])
  }

  /** Asks about a peer, hears its key, dials it and is connected. */
  function Dialling(peer: QString, key: bytes, t: Msecs): seq<Timed> {
    [Timed(FindPeer(peer), t), Timed(LookupReply(peer, key), t), Timed(Opened(0), t)]
  }

  /** Is connected to, hears a handshake and so asks about its nickname, and has it confirmed. */
  function Listening(handshake: bytes, peer: QString, key: bytes, t: Msecs): seq<Timed> {
    [Timed(Accept, t), Timed(Data(0, handshake), t), Timed(LookupReply(peer, key), t)]
  }

  lemma RunTwo(p: Platform, c: Core, e: Timed, f: Timed)
    ensures Run(p, c, [e, f]) == Step(p, Step(p, c, e), f)
  {
    hide Step;
    assert [e, f][..1] == [e] && [e][..0] == [];
    assert Run(p, c, [e]) == Step(p, c, e);
  }

  lemma RunThree(p: Platform, c: Core, e: Timed, f: Timed, g: Timed)
    ensures Run(p, c, [e, f, g]) == Step(p, Step(p, Step(p, c, e), f), g)
  {
    hide Step;
    assert [e, f, g][..2] == [e, f];
    RunTwo(p, c, e, f);
  }

  /** On one open connection, with a key and nothing sent or stored yet. */
  predicate Connected(c: Core, peer: QString) {
    && RouteTo(c, peer) == Direct && c.net.connections == [0] && c.net.connected == {0}
    && (0 in c.net.incoming ==> 0 in c.net.authenticated)
    && c.mail.db == Db(true, [], [], 1, 1)
  }

  function HavingAsked(me: Me, peer: QString): Core {
    ServerSent(Start(me), Find(peer), Unowned)
  }

  lemma FindAsks(p: Platform, me: Me, peer: QString, key: bytes, t: Msecs)
    ensures var c := HavingAsked(me, peer);
            && Step(p, Start(me), Timed(FindPeer(peer), t)) == c && Asked(c) == [peer]
            && Enabled(c, LookupReply(peer, key))
  {
    CommandsInAppend([], ToServer(Find(peer), Unowned));
    assert [] + [ToServer(Find(peer), Unowned)] == [ToServer(Find(peer), Unowned)];
    FindsAppend([], Find(peer));
    assert [] + [Find(peer)] == [Find(peer)];
  }

  /** A peer found by a fresh client is keyed and dialled. */
  lemma FindDials(p: Platform, me: Me, peer: QString, key: bytes, t: Msecs)
    requires Exchange(p, me.pub, me.sec, key).Some?
    ensures var c := PeerFound(p, HavingAsked(me, peer), peer, key, t);
            && c.net == Dialled(NO_CONNECTIONS, peer) && c.mail == HavingAsked(me, peer).mail && c.me == me
            && SessionOf(c, peer).ready && !InRelay(c, peer)
  {
    hide Exchange, Decrypt, Blobs, PlainHandled;
  }

  lemma DialConnects(p: Platform, me: Me, peer: QString, key: bytes, t: Msecs)
    requires Exchange(p, me.pub, me.sec, key).Some?
    ensures var c := Run(p, Start(me), Dialling(peer, key, t));
            && Connected(c, peer) && c.me == me && c.net.wire == [(0, HandshakeBytes(p, me.nick, me.pub))]
  {
    hide Exchange, HandshakeBytes, PeerFound, Run, Asked;
    RunThree(p, Start(me), Timed(FindPeer(peer), t), Timed(LookupReply(peer, key), t), Timed(Opened(0), t));
    FindAsks(p, me, peer, key, t);
    FindDials(p, me, peer, key, t);
  }

  /** A fresh client that accepts a connection and hears a handshake records the claim. */
  lemma HandshakeClaims(p: Platform, me: Me, handshake: bytes, peer: QString, key: bytes, t: Msecs)
    requires ParseHandshake(p, handshake) == Some(Handshake(peer, key))
    ensures var c := Step(p, Step(p, Start(me), Timed(Accept, t)), Timed(Data(0, handshake), t));
            && c.net == Claimed(Accepted(NO_CONNECTIONS), 0, Handshake(peer, key))
            && c.verify.pending == map[peer := key]
            && c.inbox == Start(me).inbox && c.sessions == map[] && c.mail.db == Start(me).mail.db && c.me == me
            && Enabled(c, LookupReply(peer, key)) && Asked(c) == [peer] && c.verify.heard == 0
  {
    hide ParseHandshake, DataReceived, Asked;
    FindAsks(p, me, peer, key, t);
    var c := Step(p, Step(p, Start(me), Timed(Accept, t)), Timed(Data(0, handshake), t));
    assert c.mail.out == HavingAsked(me, peer).mail.out;
    SameAsked(c, HavingAsked(me, peer));
  }

  lemma SameAsked(c: Core, d: Core)
    requires c.mail.out == d.mail.out
    ensures Asked(c) == Asked(d)
  {
  }

  lemma ListenConnects(p: Platform, me: Me, handshake: bytes, peer: QString, key: bytes, t: Msecs)
    requires Exchange(p, me.pub, me.sec, key).Some? && ParseHandshake(p, handshake) == Some(Handshake(peer, key))
    ensures var c := Run(p, Start(me), Listening(handshake, peer, key, t));
            && Connected(c, peer) && c.me == me && c.net.wire == []
  {
    hide Exchange, ParseHandshake, Run, Connected, PeerFound, Asked;
    var claimed := Step(p, Step(p, Start(me), Timed(Accept, t)), Timed(Data(0, handshake), t));
    HandshakeClaims(p, me, handshake, peer, key, t);
    hide DataOn;
    RunThree(p, Start(me), Timed(Accept, t), Timed(Data(0, handshake), t), Timed(LookupReply(peer, key), t));
    VerifiedConnects(p, claimed, me, peer, key, t);
  }

  lemma VerifiedConnects(p: Platform, c: Core, me: Me, peer: QString, key: bytes, t: Msecs)
    requires Exchange(p, me.pub, me.sec, key).Some? && c.me == me && c.sessions == map[] && c.inbox.buffer == []
    requires c.net == Claimed(Accepted(NO_CONNECTIONS), 0, Handshake(peer, key)) && c.verify.pending == map[peer := key]
    requires c.mail.db == Db(true, [], [], 1, 1)
    ensures var d := PeerFound(p, c, peer, key, t); Connected(d, peer) && d.me == me && d.net.wire == []
  {
    hide Exchange;
  }

  /** The lookup was answered with the peer's own key, and nothing was relayed. */
  predicate RightLookup(keys: Directory, e: Event) {
    !e.FetchReply? && (e.LookupReply? ==> e.key == keys(e.nick))
  }

  lemma {:induction false} RightLookups(p: Platform, keys: Directory, c: Core, events: seq<Timed>)
    requires forall i :: 0 <= i < |events| ==> RightLookup(keys, events[i].event)
    ensures !MistakenSomewhere(p, keys, c, events)
  {
    hide Enabled, LookupKeys;
    if events != [] {
      RightLookups(p, keys, c, events[..|events| - 1]);
      assert RightLookup(keys, events[|events| - 1].event);
    }
  }

  lemma MeetingIsRight(p: Platform, keys: Directory, c: Core, nick: QString, handshake: bytes, t: Msecs)
    ensures var dialling, listening := Dialling(nick, keys(nick), t), Listening(handshake, nick, keys(nick), t);
            && !MistakenSomewhere(p, keys, c, dialling) && InTime(dialling, t) && EndTime(dialling, t) == t
            && !MistakenSomewhere(p, keys, c, listening) && InTime(listening, t) && EndTime(listening, t) == t
  {
    hide MistakenSomewhere;
    RightLookups(p, keys, c, Dialling(nick, keys(nick), t));
    RightLookups(p, keys, c, Listening(handshake, nick, keys(nick), t));
  }

  /** What a connected client hands to its peer goes out on the one connection. */
  lemma OneWrite(net: Net, data: bytes)
    requires net.connections == [0] && net.connected == {0}
    ensures DataSent(net, data).wire == net.wire + [(0, data)]
  {
    assert net.connections[..0] == [] && [] + [(0 as nat, data)] == [(0 as nat, data)];
    assert Writes([], net.connected, data) == [];
  }

  /** Data on the one connection is taken as data, not as a handshake. */
  lemma DataArrives(p: Platform, c: Core, data: bytes, now: Msecs)
    requires c.net.connections == [0] && (0 in c.net.incoming ==> 0 in c.net.authenticated)
    ensures Step(p, c, Timed(Data(0, data), now)) == DataReceived(p, c, data, now)
  {
    hide DataReceived;
  }

  lemma NicksDiffer(p: Platform, keys: Directory, a: Core, b: Core, t: Msecs)
    requires WellKept(p, keys, a, t) && WellKept(p, keys, b, t) && a.me.pub != b.me.pub
    ensures a.me.nick != b.me.nick && b.me.nick != []
  {
    hide Invariant, KeysAgree, Nonces, OwnsKey;
  }

  lemma DirectReady(c: Core, peer: QString)
    requires RouteTo(c, peer) == Direct
    ensures SessionOf(c, peer).ready
  {
  }

  lemma NothingHappens(p: Platform, keys: Directory, c: Core, at: Msecs)
    ensures !MistakenSomewhere(p, keys, c, []) && InTime([], at)
  {
  }

  lemma ReadingKeepsNet(p: Platform, c: Core, blob: bytes)
    ensures PeerReading(p, c, blob).net == c.net
  {
  }

  lemma SentKeepsConnection(net: Net, data: bytes)
    ensures DataSent(net, data) == net.(wire := DataSent(net, data).wire)
  {
  }

  /** Each knows the other, and they are connected. */
  ghost predicate Acquainted(p: Platform, keys: Directory, a: Core, b: Core, t: Msecs) {
    && WellKept(p, keys, a, t) && WellKept(p, keys, b, t) && a.me.pub != b.me.pub
    && Connected(a, b.me.nick) && Connected(b, a.me.nick)
  }

  /** A lookup, a dial and a verified handshake make two fresh clients acquainted. */
  lemma Introduced(p: Platform, keys: Directory, me: Me, peer: Me, t: Msecs)
    requires Laws(p) && Identity(p, keys, me) && Identity(p, keys, peer) && me.pub != peer.pub && Presentable(p, me)
    ensures var a := Run(p, Start(me), Dialling(peer.nick, peer.pub, t));
            && a.net.wire == [(0, HandshakeBytes(p, me.nick, me.pub))]
            && var b := Run(p, Start(peer), Listening(a.net.wire[0].1, me.nick, me.pub, t));
            && Acquainted(p, keys, a, b, t) && a.me == me && b.me == peer && b.net.wire == []
  {
    hide Run, HandshakeBytes, Dialling, Listening, Nameable, Nonces, Exchange, KxLaw, BoxLaw, Utf8Law,
      MistakenSomewhere, InTime, EndTime, WellKept, ParseHandshake, Connected;
    var hs := HandshakeBytes(p, me.nick, me.pub);
    RolesCross(p, me.sec, peer.sec);
    HandshakeRoundTrip(p, me.nick, me.pub);
    DialConnects(p, me, peer.nick, peer.pub, t);
    ListenConnects(p, peer, hs, me.nick, me.pub, t);
    MeetingIsRight(p, keys, Start(me), peer.nick, hs, t);
    MeetingIsRight(p, keys, Start(peer), me.nick, hs, t);
    ClientReachable(p, keys, me, Dialling(peer.nick, peer.pub, t), t);
    ClientReachable(p, keys, peer, Listening(hs, me.nick, me.pub, t), t);
  }

  /** A message written by one of two acquainted clients is stored by the other, whose answer marks it read. */
  lemma MessageAnswered(p: Platform, keys: Directory, a: Core, b: Core, chat: Chat, t: Msecs, at: Msecs, now: Msecs)
    requires Laws(p) && Acquainted(p, keys, a, b, t)
    requires chat.text != [] && |EncodeChat(chat.(sender := a.me.nick))| < NULL_SIZE && t <= at <= now
    ensures var sent := chat.(sender := a.me.nick);
            var a1 := Step(p, a, Timed(Send(b.me.nick, chat), at));
            && |a1.net.wire| == |a.net.wire| + 1 && a1.net.wire[..|a.net.wire|] == a.net.wire
            && var b1 := Step(p, b, Timed(Data(0, a1.net.wire[|a.net.wire|].1), now));
            && b1.mail.db.messages == [NewRow(1, a.me.nick, sent, at, false)] && |b1.net.wire| == |b.net.wire| + 1
            && var a2 := Step(p, a1, Timed(Data(0, b1.net.wire[|b.net.wire|].1), now));
            && MessageRead(a2.mail.db.messages, 0, b.me.nick, sent, at)
  {
    hide SendMessage, DataReceived, DirectBlob, DataSent, Delivered, Answer, PeerReading, MessageRead, NewRow, Laws,
      Invariant, KeysAgree, EncodeChat, SessionOf, MessageBytes, RouteTo, Nonces, Nameable, OwnsKey, Linked,
      MistakenSomewhere, InTime;
    var sent := chat.(sender := a.me.nick);
    NicksDiffer(p, keys, a, b, t);
    var a1, blob := SendMessage(p, a, b.me.nick, chat, at), DirectBlob(p, a, b.me.nick, MessageBytes(sent, at));
    NothingHappens(p, keys, a1, at);
    DirectExchange(p, keys, a, b, chat, t, at, [], now, now);
    OneWrite(a.net, blob);
    DataArrives(p, b, blob, now);
    var c := PeerReading(p, b, blob);
    ReadingKeepsRoute(p, b, blob, a.me.nick);
    DirectReady(a, b.me.nick);
    DirectReady(b, a.me.nick);
    ClientsLinked(p, keys, a, b) by { LawsGive(p); }
    DirectHandled(p, a, b, sent, at, now);
    DeliveryStores(p, c, sent, at, now);
    DeliveryAnswers(p, c, sent, at, now);
    var e := Answer(p, c, sent, at, now);
    assert c.net == b.net by { ReadingKeepsNet(p, b, blob); }
    OneWrite(b.net, e.data);
    assert a1.net == DataSent(a.net, blob);
    SentKeepsConnection(a.net, blob);
    DataArrives(p, a1, e.data, now);
  }

  /**
   * From login on: `me` looks `peer` up and dials it, `peer` verifies the handshake by a lookup, `me` sends
   * a message. Each side hears exactly what the other wrote. The message is stored as it was sent, and
   * the bytes written in answer mark it as read.
   */
  lemma FirstMessage(p: Platform, keys: Directory, me: Me, peer: Me, chat: Chat, t: Msecs, at: Msecs, now: Msecs)
    requires Laws(p) && Identity(p, keys, me) && Identity(p, keys, peer) && me.pub != peer.pub && Presentable(p, me)
    requires chat.text != [] && |EncodeChat(chat.(sender := me.nick))| < NULL_SIZE && t <= at <= now
    ensures var sent := chat.(sender := me.nick);
            var a := Run(p, Start(me), Dialling(peer.nick, peer.pub, t));
            && |a.net.wire| == 1
            && var b := Run(p, Start(peer), Listening(a.net.wire[0].1, me.nick, me.pub, t));
            var a1 := Step(p, a, Timed(Send(peer.nick, chat), at));
            && |a1.net.wire| == 2 && a1.net.wire[0] == a.net.wire[0]
            && var b1 := Step(p, b, Timed(Data(0, a1.net.wire[1].1), now));
            && b1.mail.db.messages == [NewRow(1, me.nick, sent, at, false)] && |b1.net.wire| == 1
            && var a2 := Step(p, a1, Timed(Data(0, b1.net.wire[0].1), now));
            && MessageRead(a2.mail.db.messages, 0, peer.nick, sent, at)
  {
    hide Run, Step, Laws, Identity, Presentable, EncodeChat, MessageRead, NewRow, Acquainted;
    var a := Run(p, Start(me), Dialling(peer.nick, peer.pub, t));
    Introduced(p, keys, me, peer, t);
    var b := Run(p, Start(peer), Listening(a.net.wire[0].1, me.nick, me.pub, t));
    MessageAnswered(p, keys, a, b, chat, t, at, now);
  }
}
