/** Runs from login in which the code does less than it seems to promise. */
module Shortfalls {
  import opened Bytes
  import opened Platform
  import opened DataStream
  import opened Crypto
  import opened Protocol
  import opened LocalDb
  import opened Network
  import B = Bootstrap
  import opened Core
  import opened MailMoves
  import opened MailInvariants
  import opened CoreInvariants
  import opened CoreRuns
  import opened KeyRuns
  import opened Buffering
  import opened EndToEnd
  import opened Meeting
  import opened Clients
  import opened Replies

  // ── overlapping lookups ────────────────────────────────────────────────────

  function HavingAskedTwice(me: Me, first: QString, second: QString): Core {
    ServerSent(HavingAsked(me, first), Find(second), Unowned)
  }

  lemma AsksTwice(p: Platform, me: Me, first: QString, second: QString, key: bytes, now: Msecs)
    ensures var c := HavingAskedTwice(me, first, second);
            && Step(p, HavingAsked(me, first), Timed(FindPeer(second), now)) == c
            && Asked(c) == [first, second] && Enabled(c, LookupReply(second, key))
  {
    FindAsks(p, me, first, key, now);
    var c := HavingAsked(me, first);
    CommandsInAppend(c.mail.out, ToServer(Find(second), Unowned));
    FindsAppend(CommandsIn(c.mail.out), Find(second));
    hide CommandsIn, Finds;
  }

  /**
   * With two lookups out, the true answer to the first is taken for an answer to the second, whose
   * session is then agreed under the first one's key.
   */
  lemma OverlapMiskeys(p: Platform, keys: Directory, me: Me, first: QString, second: QString, now: Msecs)
    requires KxDistinct(p) && keys(first) != keys(second) && Exchange(p, me.pub, me.sec, keys(first)).Some?
    ensures var c := HavingAskedTwice(me, first, second);
            var d := Step(p, c, Timed(LookupReply(second, keys(first)), now));
            && TrueAnswer(keys, c, keys(first)) && !Attributed(c)
            && SessionOf(d, second).ready && !AgreedOrNone(p, d, second, keys(second))
  {
    hide Exchange, Asked, KxDistinct, PeerFound;
    AsksTwice(p, me, first, second, keys(first), now);
    var c := HavingAskedTwice(me, first, second);
    MiskeyedContact(p, c, second, keys(first), keys(second), now);
  }

  /** Once an unknown contact's lookup brings another key, its session is under that key. */
  lemma MiskeyedContact(p: Platform, c: Core, nick: QString, key: bytes, own: bytes, now: Msecs)
    requires KxDistinct(p) && key != own && Exchange(p, c.me.pub, c.me.sec, key).Some?
    requires c.sessions == map[] && nick !in c.verify.pending
    ensures var d := PeerFound(p, c, nick, key, now); SessionOf(d, nick).ready && !AgreedOrNone(p, d, nick, own)
  {
    hide Exchange, KxDistinct, PendingTried, RelayEntries, Drained, Peeked, RelaySet;
    var c1 := Keyed(p, LookupNoted(c, nick, key), nick, key);
    PassSessions(p, c1, now);
    DistinctKeys(p, c.me.pub, c.me.sec, key, own);
  }

  /** The same on the wire, with the bootstrap client connected and an honest server's line for the first nickname. */
  lemma OverlapOnTheWire(p: Platform, keys: Directory, me: Me, first: QString, second: QString,
                         host: QString, port: QString, now: Msecs)
    requires KxDistinct(p) && keys(first) != keys(second) && Exchange(p, me.pub, me.sec, keys(first)).Some?
    requires BAR !in host && BAR !in port
    ensures var asked := AfterAll(p, LoggedIn(me), BothAsked(first, second, now));
            var d := After(p, asked, Moment(Line(FoundLine(host, port, keys(first)), false), now)).core;
            && B.Commands(asked.boot.sent) == [Find(first), Find(second)] && asked.boot.queue == []
            && TrueAnswer(keys, asked.core, keys(first))
            && SessionOf(d, second).ready && !AgreedOrNone(p, d, second, keys(second))
  {
    hide Exchange, KxDistinct, Asked, AfterAll, After, InStep, FoundLine, HavingAskedTwice, LoggedIn, B.Commands;
    var asked := AfterAll(p, LoggedIn(me), BothAsked(first, second, now));
    BothAskedState(p, me, first, second, now);
    AsksTwice(p, me, first, second, keys(first), now);
    LoggedInStep(me);
    RunInStep(p, LoggedIn(me), BothAsked(first, second, now));
    OverlapMiskeys(p, keys, me, first, second, now);
    FoundLineReports(p, asked, host, port, keys(first), false, now);
  }

  /** A lookup starts the connection; once it is up a second one follows. */
  function BothAsked(first: QString, second: QString, now: Msecs): seq<Moment> {
    [Moment(Inside(FindPeer(first)), now), Moment(Transport(B.TcpResolved), now), Moment(Up(B.Tcp), now),
     Moment(Inside(FindPeer(second)), now)]
  }

  lemma BothAskedState(p: Platform, me: Me, first: QString, second: QString, now: Msecs)
    ensures var cl := AfterAll(p, LoggedIn(me), BothAsked(first, second, now));
            && cl.core == HavingAskedTwice(me, first, second)
            && B.Commands(cl.boot.sent) == [Find(first), Find(second)] && cl.boot.queue == []
  {
    hide CommandsIn, After;
    var cl0 := LoggedIn(me);
    var cl1 := After(p, cl0, Moment(Inside(FindPeer(first)), now));
    var cl2 := After(p, cl1, Moment(Transport(B.TcpResolved), now));
    var cl3 := After(p, cl2, Moment(Up(B.Tcp), now));
    var cl4 := After(p, cl3, Moment(Inside(FindPeer(second)), now));
    AfterFour(p, cl0, BothAsked(first, second, now));
    FirstAsk(p, me, first, now);
    ConnectsFirst(p, cl1, first, now);
    SecondAsk(p, cl3, first, second, now);
  }

  lemma AfterFour(p: Platform, cl: Client, ms: seq<Moment>)
    requires |ms| == 4
    ensures AfterAll(p, cl, ms) == After(p, After(p, After(p, After(p, cl, ms[0]), ms[1]), ms[2]), ms[3])
  {
    hide After;
    assert ms[..3][..2] == ms[..2] && ms[..2][..1] == ms[..1] && ms[..1][..0] == [];
    assert AfterAll(p, cl, ms[..1]) == After(p, cl, ms[0]);
    assert AfterAll(p, cl, ms[..2]) == After(p, AfterAll(p, cl, ms[..1]), ms[1]);
    assert AfterAll(p, cl, ms[..3]) == After(p, AfterAll(p, cl, ms[..2]), ms[2]);
  }

  lemma OneSubmitted(b: B.Boot, cmd: Command, now: Msecs)
    ensures Submitting(b, [cmd], now) == B.Submitted(b, cmd, now)
  {
    assert [cmd][..0] == [];
  }

  lemma AskHands(c: Core, nick: QString)
    ensures Handed(c, ServerSent(c, Find(nick), Unowned)) == [Find(nick)]
  {
    CommandsInAppend(c.mail.out, ToServer(Find(nick), Unowned));
    hide CommandsIn;
  }

  lemma FirstAsk(p: Platform, me: Me, nick: QString, now: Msecs)
    ensures var cl := After(p, LoggedIn(me), Moment(Inside(FindPeer(nick)), now));
            && cl.core == HavingAsked(me, nick)
            && cl.boot == B.FRESH.(tcp := B.HostLookup, fallback := true, queue := [Find(nick)],
                                   enqueued := [Find(nick)], pendingFind := nick)
  {
    hide Handed, Submitting;
    AskHands(Start(me), nick);
    OneSubmitted(B.FRESH, Find(nick), now);
  }

  lemma ConnectsFirst(p: Platform, cl: Client, nick: QString, now: Msecs)
    requires cl.boot == B.FRESH.(tcp := B.HostLookup, fallback := true, queue := [Find(nick)],
                                 enqueued := [Find(nick)], pendingFind := nick)
    ensures var d := After(p, After(p, cl, Moment(Transport(B.TcpResolved), now)), Moment(Up(B.Tcp), now));
            && d.core == cl.core && d.boot.tcp.Connected? && !d.boot.useWs && d.boot.queue == []
            && d.boot.ws.Unconnected?
            && d.boot.lastResponse == Some(now) && B.Commands(d.boot.sent) == [Find(nick)]
  {
  }

  lemma SecondAsk(p: Platform, cl: Client, first: QString, nick: QString, now: Msecs)
    requires cl.boot.tcp.Connected? && !cl.boot.useWs && cl.boot.queue == [] && cl.boot.lastResponse == Some(now)
    requires B.Commands(cl.boot.sent) == [Find(first)]
    ensures var d := After(p, cl, Moment(Inside(FindPeer(nick)), now));
            && d.core == ServerSent(cl.core, Find(nick), Unowned)
            && B.Commands(d.boot.sent) == [Find(first), Find(nick)] && d.boot.queue == []
  {
    hide Handed, Submitting, B.Commands, B.Tagged;
    AskHands(cl.core, nick);
    OneSubmitted(cl.boot, Find(nick), now);
    assert [] + [Find(nick)] == [Find(nick)] && [Find(first)] + [Find(nick)] == [Find(first), Find(nick)];
    B.CommandsOfTagged(cl.boot.sent, B.Tcp, [Find(nick)]);
  }

  // ── false relay keys ───────────────────────────────────────────────────────

  /** Anyone who relays an envelope in an unknown contact's name decides under which key its session is agreed. */
  lemma RelayMiskeys(p: Platform, keys: Directory, me: Me, writer: Me, encrypted: bytes, now: Msecs)
    requires KxDistinct(p) && Utf8Law(p) && Nameable(writer.nick) && writer.pub != keys(writer.nick)
    requires Exchange(p, me.pub, me.sec, writer.pub).Some?
    ensures var d := Step(p, Start(me), Timed(FetchReply([RelayEnvelope(p, writer, encrypted)]), now));
            SessionOf(d, writer.nick).ready && !AgreedOrNone(p, d, writer.nick, keys(writer.nick))
  {
    hide Exchange, KxDistinct, Utf8Law, Nameable, RelayEnvelope, ParseRelay, Decrypt, PlainHandled, RelaySet;
    var blob, nick := RelayEnvelope(p, writer, encrypted), writer.nick;
    RelayEnvelopeParses(p, writer, encrypted);
    var none: seq<bytes> := [];
    assert [blob][..0] == none && Fetched(p, Start(me), none, now) == Start(me);
    assert Fetched(p, Start(me), [blob], now) == RelayReceived(p, Start(me), blob, now);
    var c1 := KeyedIfNeeded(p, CryptoFor(Start(me), nick), nick, writer.pub);
    DistinctKeys(p, me.pub, me.sec, writer.pub, keys(nick));
    AnythingIsClosed();
    HandleQuietly(Anything(), p, RelayEntered(c1, nick), Decrypt(p, SessionOf(c1, nick), encrypted), nick, now);
  }

  // ── the wrong message is settled ───────────────────────────────────────────

  /** A first message to a peer without a key waits in the outbox. */
  lemma FirstQueues(p: Platform, me: Me, peer: QString, chat: Chat, now: Msecs)
    requires chat.text != [] && peer != [] && peer != me.nick
    ensures var c, sent := SendMessage(p, Start(me), peer, chat, now), chat.(sender := me.nick);
            && c.mail.db == Db(true, [NewRow(1, peer, sent, now, true).(status := MsgPending)],
                               [OutRow(1, peer, MessageBytes(sent, now))], 2, 2)
            && c.mail.out == [] && c.mail.relayIds == [] && c.mail.trace.answered == 0
            && c.sessions == map[peer := NO_SESSION] && c.net == NO_CONNECTIONS && c.inbox == Start(me).inbox
            && c.peers == Start(me).peers && c.verify == Start(me).verify && c.me == me && c.drawn == 0
  {
    hide Encrypt, MessageBytes, NewRow;
    StatusOfNew(Start(me).mail.db, NewRow(1, peer, chat.(sender := me.nick), now, true), MsgPending);
    NewRowId(1, peer, chat.(sender := me.nick), now);
    assert [] + [NewRow(1, peer, chat.(sender := me.nick), now, true)]
      == [NewRow(1, peer, chat.(sender := me.nick), now, true)];
  }

  /**
   * A run from login: a message to a peer whose key is unknown is queued, the user dials the peer, the dial
   * times out, and the packet is gone from the outbox with nothing ever handed to a transport.
   */
  lemma DialLosesQueuedMessage(p: Platform, me: Me, peer: QString, chat: Chat, now: Msecs)
    requires chat.text != [] && peer != [] && peer != me.nick
    ensures var queued := Step(p, Start(me), Timed(Send(peer, chat), now));
            var c := Step(p, Step(p, queued, Timed(DialPeer(peer), now)), Timed(Expired(0), now));
            && |Peeked(queued.mail.db, peer)| == 1 && Peeked(c.mail.db, peer) == [] && c.mail.out == []
            && AnyLost(c.mail.trace.drained)
  {
    hide SendMessage, MessageBytes, NewRow, Drained, HostDialled, P2pFailed;
    FirstQueues(p, me, peer, chat, now);
    var queued := SendMessage(p, Start(me), peer, chat, now);
    var row := OutRow(1, peer, MessageBytes(chat.(sender := me.nick), now));
    BlobsAppend([], row, peer);
    assert [] + [row] == [row] && [] + [row.blob] == [row.blob];
    DialThenExpiry(p, queued, peer, now);
    DrainedUnsent(queued.mail, peer);
  }

  lemma DialThenExpiry(p: Platform, c: Core, peer: QString, now: Msecs)
    requires c.net == NO_CONNECTIONS && !SessionOf(c, peer).ready && Peeked(c.mail.db, peer) != []
    ensures Step(p, Step(p, c, Timed(DialPeer(peer), now)), Timed(Expired(0), now)).mail
         == Drained(c.mail, peer, [], true)
  {
    hide Drained, Peeked, RelaySet, RemoveAll;
  }

  lemma DrainedUnsent(m: Mail, peer: QString)
    requires m.db.ready && Peeked(m.db, peer) != []
    ensures var n := Drained(m, peer, [], true);
            Peeked(n.db, peer) == [] && n.out == m.out && AnyLost(n.trace.drained)
  {
    WithoutBlobs(m.db.outbox, peer, peer);
    LossesAfter(m.trace.drained, peer, Peeked(m.db, peer), true);
    hide Blobs, Without, Drains, AnyLost;
  }

  /** The queued first message, behind a NAT, and the peer asked about. */
  function BehindNat(p: Platform, me: Me, peer: QString, chat: Chat, now: Msecs): Core {
    var queued := SendMessage(p, Start(me), peer, chat, now);
    ServerSent(queued.(net := queued.net.(skipP2p := true)), Find(peer), Unowned)
  }

  lemma BehindNatRun(p: Platform, me: Me, peer: QString, chat: Chat, key: bytes, now: Msecs)
    requires chat.text != [] && peer != [] && peer != me.nick
    ensures var c := BehindNat(p, me, peer, chat, now);
            && c == Run(p, Start(me),
                        [Timed(Send(peer, chat), now), Timed(SeenBehindNat, now), Timed(FindPeer(peer), now)])
            && c.mail.out == [ToServer(Find(peer), Unowned)] && Enabled(c, LookupReply(peer, key))
  {
    hide SendMessage, Run, Asked;
    FirstQueues(p, me, peer, chat, now);
    var c := BehindNat(p, me, peer, chat, now);
    RunThree(p, Start(me), Timed(Send(peer, chat), now), Timed(SeenBehindNat, now), Timed(FindPeer(peer), now));
    assert [] + [ToServer(Find(peer), Unowned)] == [ToServer(Find(peer), Unowned)];
    FindAsks(p, me, peer, key, now);
    SameAsked(c, HavingAsked(me, peer));
  }

  /** The peer is found, put into relay mode, and sent the queued message by a STORE of no message's. */
  lemma FoundFlushes(p: Platform, me: Me, peer: QString, chat: Chat, key: bytes, now: Msecs)
    requires chat.text != [] && peer != [] && peer != me.nick && Exchange(p, me.pub, me.sec, key).Some?
    ensures var c := BehindNat(p, me, peer, chat, now);
            var d := PeerFound(p, c, peer, key, now);
            && RouteTo(d, peer) == Relayed && d.me == me && d.mail.relayIds == [] && d.mail.trace.answered == 0
            && d.mail.db == Db(true, c.mail.db.messages, [], 2, 2) && |c.mail.db.messages| == 1
            && (exists blob, packet ::
                  d.mail.out == [ToServer(Find(peer), Unowned), ToServer(Store(peer, blob), FromOutbox(peer, packet))])
  {
    hide SendMessage, Exchange, Encrypt, Decrypt, RelayEnvelope, MessageBytes, NewRow, Asked, PeerFound;
    var sent, c := chat.(sender := me.nick), BehindNat(p, me, peer, chat, now);
    FirstQueues(p, me, peer, chat, now);
    BehindNatRun(p, me, peer, chat, key, now);
    FoundThenFailed(p, c, peer, key, now);
    var c3 := P2pReady(p, c, peer, key);
    var row := OutRow(1, peer, MessageBytes(sent, now));
    BlobsAppend([], row, peer);
    assert [] + [row] == [row] && [] + [row.blob] == [row.blob];
    WithoutBlobs([row], peer, peer);
    assert Without([row], peer) == [];
    var e := ToServer(Store(peer, RelayEnvelope(p, me, Encrypt(p, SessionOf(c3, peer), row.blob, me.nonces(0)))),
                      FromOutbox(peer, row.blob));
    assert RelayEntries(p, me, SessionOf(c3, peer), 0, peer, [row.blob]) == [e];
    assert c.mail.out + [e] == [c.mail.out[0], e];
  }

  /** Found by the lookup and failed over: keyed, in relay mode, before the flush. */
  function P2pReady(p: Platform, c: Core, peer: QString, key: bytes): Core {
    var c1 := Keyed(p, LookupNoted(c, peer, key), peer, key);
    c1.(peers := RelaySet(Touched(c1.peers, peer), peer, true))
  }

  lemma FoundThenFailed(p: Platform, c: Core, peer: QString, key: bytes, now: Msecs)
    requires Exchange(p, c.me.pub, c.me.sec, key).Some? && peer !in c.verify.pending && !SessionOf(c, peer).ready
    requires c.inbox.buffer == [] && !InRelay(c, peer) && c.net.connections == [] && c.net.skipP2p
    ensures var d := P2pReady(p, c, peer, key);
            && PeerFound(p, c, peer, key, now) == RelayFlushed(p, d, peer)
            && RouteTo(d, peer) == Relayed && d.mail == c.mail && d.me == c.me && d.drawn == c.drawn
  {
    hide Exchange, RelayFlushed;
  }

  lemma TagsOf(first: Outbound, flushed: Outbound, sent: Outbound)
    requires !IsStore(first) && IsStore(flushed) && !flushed.origin.FromMessage?
    requires IsStore(sent) && sent.origin.FromMessage?
    ensures StoreTags([first, flushed] + [sent]) == [None, Some(sent.origin.id)]
  {
    assert StoreTags([]) == [];
    assert [] + [first] == [first] && [first] + [flushed] == [first, flushed];
    TagsAppend([], first);
    TagsAppend([first], flushed);
    TagsAppend([first, flushed], sent);
    hide StoreTags;
  }

  /** Flushed once, then a second message: its STORE waits behind one of no message's. */
  function TwoStored(p: Platform, me: Me, peer: QString, chat: Chat, key: bytes, now: Msecs): Core {
    SendMessage(p, PeerFound(p, BehindNat(p, me, peer, chat, now), peer, key, now), peer, chat, now)
  }

  lemma TwoStoredState(p: Platform, me: Me, peer: QString, chat: Chat, key: bytes, now: Msecs)
    requires chat.text != [] && peer != [] && peer != me.nick && Exchange(p, me.pub, me.sec, key).Some?
    ensures var c := TwoStored(p, me, peer, chat, key, now);
            && c.mail.relayIds == [2] && StoreTags(c.mail.out) == [None, Some(2)] && c.mail.trace.answered == 0
            && c.mail.db.ready && |c.mail.db.messages| == 2
            && c.mail.db.messages[0].id == 1 && c.mail.db.messages[0].status == MsgPending
            && c.mail.db.messages[1].id == 2 && c.mail.db.messages[1].status == MsgPending
  {
    hide SendMessage, Exchange, Encrypt, RelayEnvelope, MessageBytes, NewRow, PeerFound, BehindNat, RouteTo, StoreTags,
      RelayBlob;
    var d := PeerFound(p, BehindNat(p, me, peer, chat, now), peer, key, now);
    FoundFlushes(p, me, peer, chat, key, now);
    FirstRow(p, me, peer, chat, now);
    SendHandsOver(p, d, peer, chat, now);
    SendKeepsTrace(p, d, peer, chat, now);
    NewRowId(2, peer, chat.(sender := me.nick), now);
    var e := ToServer(Store(peer, RelayBlob(p, d, peer, MessageBytes(chat.(sender := me.nick), now))), FromMessage(2));
    TagsOf(d.mail.out[0], d.mail.out[1], e);
    assert d.mail.out == [d.mail.out[0], d.mail.out[1]];
    assert [] + [2] == [2];
  }

  lemma FirstRow(p: Platform, me: Me, peer: QString, chat: Chat, now: Msecs)
    requires chat.text != [] && peer != [] && peer != me.nick
    ensures var rows := BehindNat(p, me, peer, chat, now).mail.db.messages;
            |rows| == 1 && rows[0].id == 1 && rows[0].status == MsgPending
  {
    hide SendMessage, MessageBytes;
    FirstQueues(p, me, peer, chat, now);
  }

  lemma SendKeepsTrace(p: Platform, c: Core, peer: QString, chat: Chat, now: Msecs)
    ensures var d := SendMessage(p, c, peer, chat, now).mail;
            d.trace.answered == c.mail.trace.answered && d.db.ready == c.mail.db.ready
  {
    hide Encrypt, RelayEnvelope, PeerEnvelope, MessageBytes, RelaySet, DataSent;
  }

  /**
   * A run from login: a message waits, the peer is found behind a NAT and the message flushed by a STORE
   * of its own, a second message is sent. The OK for the first STORE marks the second message sent; when
   * the second STORE then fails nothing is left to mark, and the first message stays pending.
   */
  lemma EarlyReplyMarksWrong(p: Platform, me: Me, peer: QString, chat: Chat, key: bytes, now: Msecs)
    requires chat.text != [] && peer != [] && peer != me.nick && Exchange(p, me.pub, me.sec, key).Some?
    ensures var events := [Timed(Send(peer, chat), now), Timed(SeenBehindNat, now), Timed(FindPeer(peer), now)];
            var found := Step(p, Run(p, Start(me), events), Timed(LookupReply(peer, key), now));
            var c := Step(p, found, Timed(Send(peer, chat), now));
            var after := Step(p, c, Timed(StoreReply(true), now));
            var end := Step(p, after, Timed(StoreReply(false), now)).mail.db.messages;
            && c.mail.relayIds == [2] && StoreTags(c.mail.out) == [None, Some(2)] && SettlesEarly(c.mail)
            && Enabled(after, StoreReply(false)) && |end| == 2
            && end[1].id == 2 && end[1].status == MsgSent && end[0].id == 1 && end[0].status == MsgPending
  {
    hide SendMessage, Exchange, PeerFound, BehindNat, Asked, Run, StoreTags, TwoStored;
    BehindNatRun(p, me, peer, chat, key, now);
    TwoStoredState(p, me, peer, chat, key, now);
    TwoStoredIs(p, me, peer, chat, key, now);
  }

  lemma TwoStoredIs(p: Platform, me: Me, peer: QString, chat: Chat, key: bytes, now: Msecs)
    ensures SendMessage(p, PeerFound(p, BehindNat(p, me, peer, chat, now), peer, key, now), peer, chat, now)
         == TwoStored(p, me, peer, chat, key, now)
  {
  }

  // ── sent, but not written ──────────────────────────────────────────────────

  /** A run from login: a message sent while the dial is pending counts as sent, and no byte has left. */
  lemma SentWhileDialling(p: Platform, me: Me, peer: QString, chat: Chat, key: bytes, now: Msecs)
    requires chat.text != [] && peer != [] && peer != me.nick && Exchange(p, me.pub, me.sec, key).Some?
    ensures var events := [Timed(FindPeer(peer), now), Timed(LookupReply(peer, key), now),
                           Timed(Send(peer, chat), now)];
            var c := Run(p, Start(me), events);
            |c.mail.db.messages| == 1 && c.mail.db.messages[0].status == MsgSent && c.net.wire == []
  {
    hide SendMessage, Exchange, PeerFound, Asked, Run, DirectBlob, MessageBytes, NewRow;
    RunThree(p, Start(me), Timed(FindPeer(peer), now), Timed(LookupReply(peer, key), now),
             Timed(Send(peer, chat), now));
    FindAsks(p, me, peer, key, now);
    FindDials(p, me, peer, key, now);
    var d := PeerFound(p, HavingAsked(me, peer), peer, key, now);
    SendHandsOver(p, d, peer, chat, now);
    WritesSomewhere(d.net.connections, d.net.connected,
                    DirectBlob(p, d, peer, MessageBytes(chat.(sender := me.nick), now)));
  }

  // ── a read message that stops showing it ───────────────────────────────────

  /** Asked about, found and dialled in vain: the peer is in relay mode. */
  function Failing(peer: QString, key: bytes, t: Msecs): seq<Timed> {
    [Timed(FindPeer(peer), t), Timed(LookupReply(peer, key), t), Timed(Expired(0), t)]
  }

  lemma FailingRelays(p: Platform, me: Me, peer: QString, key: bytes, t: Msecs)
    requires Exchange(p, me.pub, me.sec, key).Some?
    ensures var c := Run(p, Start(me), Failing(peer, key, t));
            && RouteTo(c, peer) == Relayed && c.me == me && c.mail == HavingAsked(me, peer).mail
  {
    hide Exchange, PeerFound, Run, Asked, RemoveAll, RelayEntries, Drained;
    RunThree(p, Start(me), Timed(FindPeer(peer), t), Timed(LookupReply(peer, key), t), Timed(Expired(0), t));
    FindAsks(p, me, peer, key, t);
    FindDials(p, me, peer, key, t);
  }

  lemma FailingIsClient(p: Platform, keys: Directory, me: Me, peer: QString, t: Msecs)
    requires Identity(p, keys, me)
    ensures WellKept(p, keys, Run(p, Start(me), Failing(peer, keys(peer), t)), t) && WellKept(p, keys, Start(me), t)
  {
    hide Run, Identity, WellKept, MistakenSomewhere;
    var events := Failing(peer, keys(peer), t);
    RightLookups(p, keys, Start(me), events);
    ClientReachable(p, keys, me, events, t);
    RightLookups(p, keys, Start(me), []);
    ClientReachable(p, keys, me, [], t);
    NoRun(p, Start(me));
  }

  lemma NoRun(p: Platform, c: Core)
    ensures Run(p, c, []) == c
  {
  }

  /** Nothing waiting for a reply is settled meanwhile. */
  ghost function Waits(): Relation {
    (m: Mail, n: Mail, now: Msecs, discards: bool) =>
      m.out <= n.out && m.relayIds <= n.relayIds && n.trace.answered == m.trace.answered
  }

  lemma SendsWait(m: Mail, peer: QString, chat: Chat, e: Outbound, now: Msecs)
    ensures var n, k := SentHeld(m, peer, chat, now), SentNow(m, peer, chat, e, now);
            && n.out == m.out && n.relayIds == m.relayIds && n.trace.answered == m.trace.answered
            && m.out <= k.out && m.relayIds <= k.relayIds && k.trace.answered == m.trace.answered
  {
    hide Saved, StatusUpdated, OutEnqueued, MessageBytes, SavedId;
  }

  lemma WaitsIsClosed()
    ensures MoveClosed(Waits())
  {
    hide Saved, MarkedRead, SentHeld, SentNow, Carrier, Peeked, Confirmed, Drains, Carries;
    forall m, peer: QString, chat, e, now: Msecs ensures SendLaw(Waits(), m, peer, chat, e, now) {
      SendsWait(m, peer, chat, e, now);
    }
    forall m, peer: QString, entries, lost, now: Msecs ensures DrainLaw(Waits(), m, peer, entries, lost, now) {
    }
    forall m, chat, at: Msecs, r, now: Msecs ensures StoreLaw(Waits(), m, chat, at, r, now) {
    }
    forall m, e, now: Msecs ensures LogLaw(Waits(), m, e, now) {
    }
    forall a, b, c, t: Msecs, now: Msecs, before, discards
      ensures ChainLaw(Waits(), a, b, c, t, now, before, discards)
    {
    }
    hide SendLaw, DrainLaw, StoreLaw, LogLaw, ChainLaw, Logged, Incoming, Receipted, Drained;
  }

  lemma RelayWaits(p: Platform, c: Core, blob: bytes, now: Msecs)
    requires InboxInv(c.inbox)
    ensures var d := RelayReceived(p, c, blob, now);
            && c.mail.out <= d.mail.out && c.mail.relayIds <= d.mail.relayIds
            && d.mail.trace.answered == c.mail.trace.answered
  {
    hide RelayReceived, InboxInv, MoveClosed;
    WaitsIsClosed();
    assert Holds(Waits(), c.mail, now);
    RelayEvolves(Waits(), p, c, blob, now);
  }

  lemma {:induction false} TagsGrow(out: seq<Outbound>, later: seq<Outbound>)
    requires out <= later
    ensures |StoreTags(out)| <= |StoreTags(later)|
  {
    if out != later {
      assert out <= later[..|later| - 1];
      TagsGrow(out, later[..|later| - 1]);
    }
  }

  lemma FetchesOne(p: Platform, c: Core, blob: bytes, now: Msecs)
    ensures Step(p, c, Timed(FetchReply([blob]), now)) == RelayReceived(p, c, blob, now)
  {
    hide RelayReceived;
    var none: seq<bytes> := [];
    assert [blob][..0] == none && Fetched(p, c, none, now) == c;
  }

  lemma RelayExtends(p: Platform, c: Core, blob: bytes, now: Msecs)
    requires Invariant(c, now)
    ensures Extends(c.mail.db.messages, RelayReceived(p, c, blob, now).mail.db.messages)
    ensures MailInv(RelayReceived(p, c, blob, now).mail, now)
  {
    hide RelayReceived, InboxInv, MailInv, MoveClosed, Extends, Lockstep;
    KeptIsClosed();
    KeptStates(c.mail, now);
    RelayEvolves(Kept(), p, c, blob, now);
  }

  /** A receipt that marks the one waiting message, and then the OK for its STORE. */
  lemma ReplyHides(p: Platform, c: Core, peer: QString, blob: bytes, sent: Chat, at: Msecs, now: Msecs)
    requires Invariant(c, now) && c.mail.relayIds == [1] && c.mail.trace.answered == 0 && StoreTags(c.mail.out) != []
    requires |c.mail.db.messages| == 1 && c.mail.db.messages[0].id == 1
    requires MessageRead(RelayReceived(p, c, blob, now).mail.db.messages, 0, peer, sent, at)
    ensures var d := Step(p, c, Timed(FetchReply([blob]), now));
            && d == RelayReceived(p, c, blob, now) && Enabled(d, StoreReply(true)) && HidesRead(d.mail)
            && var rows := Step(p, d, Timed(StoreReply(true), now)).mail.db.messages;
            && |rows| > 0 && rows[0].isRead && rows[0].status == MsgSent
  {
    hide RelayReceived, MailInv, Extends, StoreTags, InboxInv, Lockstep;
    FetchesOne(p, c, blob, now);
    var d := RelayReceived(p, c, blob, now);
    RelayWaits(p, c, blob, now);
    RelayExtends(p, c, blob, now);
    TagsGrow(c.mail.out, d.mail.out);
    RowKept(c.mail.db.messages, d.mail.db.messages, 0);
    DbFacts(d.mail, now);
    assert d.mail.relayIds[0] == 1 && ReadWithId(d.mail.db.messages[0], 1);
  }

  lemma Prepared(p: Platform, keys: Directory, me: Me, peer: Me, t: Msecs)
    requires Laws(p) && Identity(p, keys, me) && Identity(p, keys, peer) && me.pub != peer.pub
    ensures var a := Run(p, Start(me), Failing(peer.nick, peer.pub, t));
            && WellKept(p, keys, a, t) && WellKept(p, keys, Start(peer), t)
            && RouteTo(a, peer.nick) == Relayed && a.me == me && a.mail == HavingAsked(me, peer.nick).mail
            && me.nick != peer.nick && peer.nick != []
  {
    hide Run, WellKept, RouteTo, Exchange, KxLaw, BoxLaw, Utf8Law, Nonces, Failing;
    RolesCross(p, me.sec, peer.sec);
    FailingRelays(p, me, peer.nick, peer.pub, t);
    FailingIsClient(p, keys, me, peer.nick, t);
    FailingIsClient(p, keys, peer, me.nick, t);
  }

  /** The message relayed from there waits for its reply. */
  lemma FirstRelayed(p: Platform, a: Core, peer: QString, chat: Chat, at: Msecs)
    requires RouteTo(a, peer) == Relayed && a.mail == HavingAsked(a.me, peer).mail && !Refused(a, peer, chat.text)
    ensures var c := SendMessage(p, a, peer, chat, at).mail;
            && c.relayIds == [1] && c.trace.answered == 0 && StoreTags(c.out) != [] && |c.out| == 2
            && c.out[1].ToServer? && c.out[1].cmd.Store?
            && |c.db.messages| == 1 && c.db.messages[0].id == 1 && !c.db.messages[0].isRead
  {
    hide SendMessage, RouteTo, RelayBlob, MessageBytes, StoreTags, Refused;
    SendHandsOver(p, a, peer, chat, at);
    SendKeepsTrace(p, a, peer, chat, at);
    assert [] + [1] == [1];
    var e := ToServer(Store(peer, RelayBlob(p, a, peer, MessageBytes(chat.(sender := a.me.nick), at))), FromMessage(1));
    TagsAppend(a.mail.out, e);
  }

  lemma KeptUntil(p: Platform, keys: Directory, a: Core, peer: QString, chat: Chat, t: Msecs, at: Msecs, now: Msecs)
    requires WellKept(p, keys, a, t) && t <= at <= now
    ensures Invariant(SendMessage(p, a, peer, chat, at), now)
  {
    hide Invariant, SendMessage, Identity, KeysAgree, Extends, AnyLost;
    InvariantLater(a, t, at);
    SendKeeps(p, a, peer, chat, at);
    InvariantLater(SendMessage(p, a, peer, chat, at), at, now);
  }

  /**
   * A run from login: a message is relayed, its receipt arrives, and then the late OK for its STORE. The
   * row stays marked as read, but its status goes back to Sent.
   */
  lemma LateReplyHidesRead(p: Platform, keys: Directory, me: Me, peer: Me, chat: Chat, t: Msecs, at: Msecs, now: Msecs)
    requires Laws(p) && Identity(p, keys, me) && Identity(p, keys, peer) && me.pub != peer.pub
    requires chat.text != [] && |EncodeChat(chat.(sender := me.nick))| < NULL_SIZE && t <= at <= now
    ensures var a := Run(p, Start(me), Failing(peer.nick, peer.pub, t));
            var a1 := Step(p, a, Timed(Send(peer.nick, chat), at));
            && |a1.mail.out| == 2 && a1.mail.out[1].ToServer? && a1.mail.out[1].cmd.Store?
            && var b := RelayReceived(p, Start(peer), a1.mail.out[1].cmd.blob, now);
            && |b.mail.out| == 1 && b.mail.out[0].ToServer? && b.mail.out[0].cmd.Store?
            && var a2 := Step(p, a1, Timed(FetchReply([b.mail.out[0].cmd.blob]), now));
            && MessageRead(a2.mail.db.messages, 0, peer.nick, chat.(sender := me.nick), at)
            && Enabled(a2, StoreReply(true)) && HidesRead(a2.mail)
            && var rows := Step(p, a2, Timed(StoreReply(true), now)).mail.db.messages;
            && |rows| > 0 && rows[0].isRead && rows[0].status == MsgSent
  {
    hide Laws, Identity, EncodeChat, Run, SendMessage, RelayReceived, RouteTo, RelayBlob, MessageRead, Exchange,
      Failing, Invariant, KeysAgree, MistakenSomewhere, MessageBytes, NewRow, StoreTags, WellKept;
    var a := Run(p, Start(me), Failing(peer.nick, peer.pub, t));
    Prepared(p, keys, me, peer, t);
    var a1 := SendMessage(p, a, peer.nick, chat, at);
    FirstRelayed(p, a, peer.nick, chat, at);
    NothingHappens(p, keys, a1, at);
    RelayExchange(p, keys, a, Start(peer), chat, t, at, [], now, now);
    NoRun(p, a1);
    KeptUntil(p, keys, a, peer.nick, chat, t, at, now);
    var answer := RelayReceived(p, Start(peer), a1.mail.out[1].cmd.blob, now).mail.out[0];
    assert answer.cmd.Store? by { NotReadBefore(a1.mail.db.messages, peer.nick, chat.(sender := me.nick), at); }
    ReplyHides(p, a1, peer.nick, answer.cmd.blob, chat.(sender := me.nick), at, now);
  }

  lemma NotReadBefore(rows: seq<Row>, peer: QString, sent: Chat, at: Msecs)
    requires |rows| == 1 && !rows[0].isRead
    ensures !MessageRead(rows, 0, peer, sent, at)
  {
  }

  // ── a queued message that is handed over and never delivered ───────────────

  /** A message waits, its peer dials in and presents itself. */
  function Claimant(p: Platform, me: Me, peer: QString, chat: Chat, key: bytes, now: Msecs): Core {
    var queued := SendMessage(p, Start(me), peer, chat, now);
    var claimed := queued.(net := Claimed(Accepted(NO_CONNECTIONS), 0, Handshake(peer, key)),
                           verify := queued.verify.(pending := map[peer := key]));
    ServerSent(claimed, Find(peer), Unowned)
  }

  lemma ClaimantRun(p: Platform, me: Me, handshake: bytes, peer: QString, chat: Chat, key: bytes, now: Msecs)
    requires chat.text != [] && peer != [] && peer != me.nick
    requires ParseHandshake(p, handshake) == Some(Handshake(peer, key))
    ensures var c := Claimant(p, me, peer, chat, key, now);
            && c == Run(p, Start(me),
                        [Timed(Send(peer, chat), now), Timed(Accept, now), Timed(Data(0, handshake), now)])
            && c.mail.out == [ToServer(Find(peer), Unowned)] && Enabled(c, LookupReply(peer, key))
  {
    hide SendMessage, Run, Asked, ParseHandshake, DataReceived;
    FirstQueues(p, me, peer, chat, now);
    var c := Claimant(p, me, peer, chat, key, now);
    RunThree(p, Start(me), Timed(Send(peer, chat), now), Timed(Accept, now), Timed(Data(0, handshake), now));
    assert [] + [ToServer(Find(peer), Unowned)] == [ToServer(Find(peer), Unowned)];
    FindAsks(p, me, peer, key, now);
    SameAsked(c, HavingAsked(me, peer));
  }

  /** The sender just before its flush: verified and keyed. */
  function Verified(p: Platform, c: Core, peer: QString, key: bytes): Core {
    var c1 := LookupNoted(c, peer, key);
    var c2 := c1.(verify := c1.verify.(pending := c1.verify.pending - {peer}), net := ConfirmedPeer(c1.net, peer));
    var c3 := Keyed(p, c2, peer, key);
    c3.(peers := RelaySet(c3.peers, peer, false))
  }

  lemma VerifiedFlushes(p: Platform, c: Core, peer: QString, key: bytes, now: Msecs)
    requires Exchange(p, c.me.pub, c.me.sec, key).Some? && c.inbox.buffer == []
    requires c.verify.pending == map[peer := key] && peer in c.net.pending
    ensures var d := Verified(p, c, peer, key);
            && PeerFound(p, c, peer, key, now) == PeerFlushed(p, d, peer)
            && SessionOf(d, peer).ready && d.mail == c.mail && d.me == c.me && d.drawn == c.drawn
  {
    hide Exchange, PeerFlushed;
  }

  /**
   * A run from login: a message waits, its peer dials in and is verified, and the message is broadcast
   * without an envelope. It is recorded as handed over and gone from the outbox, and its row stays Pending.
   * If the ciphertext has no '|' after its first byte, a receiver holds it for good, over every run, and
   * its handler is never called.
   */
  lemma QueuedMessageStuck(p: Platform, me: Me, handshake: bytes, peer: QString, chat: Chat, key: bytes, now: Msecs,
                           b: Core, events: seq<Timed>)
    requires chat.text != [] && peer != [] && peer != me.nick && Exchange(p, me.pub, me.sec, key).Some?
    requires ParseHandshake(p, handshake) == Some(Handshake(peer, key)) && Nonce(me.nonces(0))
    ensures var arriving := [Timed(Send(peer, chat), now), Timed(Accept, now), Timed(Data(0, handshake), now)];
            var a := Step(p, Run(p, Start(me), arriving), Timed(LookupReply(peer, key), now));
            var packet := MessageBytes(chat.(sender := me.nick), now);
            && |a.mail.out| == 2 && a.mail.out[1].ToPeers? && a.mail.out[1].origin == FromOutbox(peer, packet)
            && Peeked(a.mail.db, peer) == [] && |a.mail.db.messages| == 1 && a.mail.db.messages[0].status == MsgPending
            && var data, n := a.mail.out[1].data, |b.inbox.arrived|;
            var later := Run(p, DataReceived(p, b, data, now), events).inbox;
            && (IndexOf(data, BAR, 0) <= 0 ==> Held(data, n) in later.buffer)
            && (IndexOf(data, BAR, 0) <= 0 && Invariant(b, now) && InTime(events, now) ==> n !in later.consumed)
  {
    hide SendMessage, Exchange, Run, Asked, PeerFound, ParseHandshake, PeerFlushed, MessageBytes, NewRow, IndexOf,
      DataReceived, BareData, Claimant, Verified, SessionOf, Invariant, InTime;
    var packet, c := MessageBytes(chat.(sender := me.nick), now), Claimant(p, me, peer, chat, key, now);
    ClaimantRun(p, me, handshake, peer, chat, key, now);
    ClaimantState(p, me, peer, chat, key, now);
    VerifiedFlushes(p, c, peer, key, now);
    var d := Verified(p, c, peer, key);
    FlushIsBare(p, d, peer, 0);
    if IndexOf(BareData(p, d, peer, 0), BAR, 0) <= 0 {
      FlushedNeverDelivered(p, d, peer, 0, b, now, events);
      if Invariant(b, now) && InTime(events, now) {
        HeldIsNotHandled(p, b, BareData(p, d, peer, 0), now, events, Held(BareData(p, d, peer, 0), |b.inbox.arrived|));
      }
    }
  }

  lemma HeldIsNotHandled(p: Platform, b: Core, data: bytes, now: Msecs, events: seq<Timed>, h: Held)
    requires Invariant(b, now) && InTime(events, now)
    ensures var later := Run(p, DataReceived(p, b, data, now), events).inbox;
            h in later.buffer ==> h.arrival !in later.consumed
  {
    hide DataReceived, Run, MailInv, InboxInv, Lockstep, MoveClosed, AnyLost, Extends, DiscardsSomewhere, EndTime,
      InTime;
    KeptIsClosed();
    KeptStates(b.mail, now);
    ReceiveEvolves(Kept(), p, b, data, now);
    var c := DataReceived(p, b, data, now);
    LockstepSame(b, c);
    AdvancesMail(b.mail, c.mail, now);
    RunKeeps(p, c, events, now);
    if h in Run(p, c, events).inbox.buffer { BufferedOnly(Run(p, c, events).inbox, h); }
  }

  lemma AdvancesMail(m: Mail, n: Mail, now: Msecs)
    requires Kept()(m, n, now, false)
    ensures MailInv(n, now)
  {
    hide MailInv;
  }

  lemma BufferedOnly(b: Inbox, h: Held)
    requires InboxInv(b) && h in b.buffer
    ensures h.arrival !in b.consumed
  {
    assert h.arrival in Arrivals(b.buffer);
  }

  lemma ClaimantState(p: Platform, me: Me, peer: QString, chat: Chat, key: bytes, now: Msecs)
    requires chat.text != [] && peer != [] && peer != me.nick
    ensures var c := Claimant(p, me, peer, chat, key, now);
            && c.me == me && c.drawn == 0 && c.inbox.buffer == [] && c.verify.pending == map[peer := key]
            && peer in c.net.pending
            && Peeked(c.mail.db, peer) == [MessageBytes(chat.(sender := me.nick), now)]
            && |c.mail.db.messages| == 1 && c.mail.db.messages[0].status == MsgPending
  {
    hide SendMessage, MessageBytes, NewRow;
    FirstQueues(p, me, peer, chat, now);
    var row := OutRow(1, peer, MessageBytes(chat.(sender := me.nick), now));
    BlobsAppend([], row, peer);
    assert [] + [row] == [row] && [] + [row.blob] == [row.blob];
  }
}
