/**
 * A STORE lost with its connection shifts every later reply: the run from login, in the core and over the
 * bootstrap client's sockets.
 */
module Disconnections {
  import opened Bytes
  import opened Platform
  import opened DataStream
  import opened Crypto
  import opened Protocol
  import opened LocalDb
  import B = Bootstrap
  import opened Core
  import opened MailInvariants
  import opened EndToEnd
  import opened Meeting
  import opened Clients
  import opened Replies
  import opened Shortfalls

  // ── in the core ────────────────────────────────────────────────────────────

  /** A message sent by relay waits for its reply, and the peer stays in relay mode. */
  lemma RelaySends(p: Platform, c: Core, peer: QString, chat: Chat, now: Msecs)
    requires RouteTo(c, peer) == Relayed && !Refused(c, peer, chat.text) && c.mail.db.ready && Numbered(c.mail.db)
    ensures var d, id := SendMessage(p, c, peer, chat, now), c.mail.db.nextMessage;
            && RouteTo(d, peer) == Relayed && d.me == c.me && d.mail.db.ready
            && d.mail.relayIds == c.mail.relayIds + [id] && StoreTags(d.mail.out) == StoreTags(c.mail.out) + [Some(id)]
            && d.mail.trace.answered == c.mail.trace.answered && d.mail.trace.missed == c.mail.trace.missed
            && |d.mail.db.messages| == |c.mail.db.messages| + 1 && d.mail.db.nextMessage == id + 1
            && d.mail.db.outbox == c.mail.db.outbox
            && d.mail.db.messages[..|c.mail.db.messages|] == c.mail.db.messages
            && d.mail.db.messages[|c.mail.db.messages|].id == id
            && d.mail.db.messages[|c.mail.db.messages|].status == MsgPending
  {
    hide SendMessage, RouteTo, RelayBlob, MessageBytes, StoreTags, Refused, Numbered;
    var id, sent := c.mail.db.nextMessage, chat.(sender := c.me.nick);
    SendHandsOver(p, c, peer, chat, now);
    NewRowId(id, peer, sent, now);
    hide NewRow;
    SendKeepsRoute(p, c, peer, chat, now);
    TagsAppend(c.mail.out, ToServer(Store(peer, RelayBlob(p, c, peer, MessageBytes(sent, now))), FromMessage(id)));
  }

  lemma SendKeepsRoute(p: Platform, c: Core, peer: QString, chat: Chat, now: Msecs)
    requires RouteTo(c, peer) == Relayed && !Refused(c, peer, chat.text) && c.mail.db.ready
    ensures var d := SendMessage(p, c, peer, chat, now);
            && RouteTo(d, peer) == Relayed && d.me == c.me && d.mail.db.ready
            && d.mail.db.nextMessage == c.mail.db.nextMessage + 1
            && d.mail.trace.answered == c.mail.trace.answered && d.mail.trace.missed == c.mail.trace.missed
  {
    hide Encrypt, RelayEnvelope, MessageBytes, NewRow, SetStatus;
  }

  /** A first message was relayed, its STORE lost with the connection, and a second one relayed after a new one. */
  function SecondRelayed(p: Platform, c: Core, peer: QString, chat: Chat, now: Msecs): Core {
    var lost := Step(p, SendMessage(p, c, peer, chat, now), Timed(StoreLost, now));
    SendMessage(p, Step(p, lost, Timed(Reconnected, now)), peer, chat, now)
  }

  predicate Fresh(m: Mail) {
    m.db == Db(true, [], [], 1, 1) && m.relayIds == [] && StoreTags(m.out) == []
    && m.trace.answered == 0 && m.trace.missed == []
  }

  lemma SecondRelayedState(p: Platform, c: Core, peer: QString, chat: Chat, now: Msecs)
    requires RouteTo(c, peer) == Relayed && !Refused(c, peer, chat.text) && Fresh(c.mail)
    ensures var d := SecondRelayed(p, c, peer, chat, now);
            && d.mail.relayIds == [1, 2] && StoreTags(d.mail.out) == [Some(1), Some(2)]
            && d.mail.trace.answered == 1 && d.mail.trace.missed == [1] && d.mail.db.ready
            && |d.mail.db.messages| == 2
            && d.mail.db.messages[0].id == 1 && d.mail.db.messages[0].status == MsgPending
            && d.mail.db.messages[1].id == 2 && d.mail.db.messages[1].status == MsgPending
  {
    hide SendMessage, RouteTo, Refused, StoreTags, Step, Numbered;
    FreshIsNumbered();
    RelaySends(p, c, peer, chat, now);
    var c1 := SendMessage(p, c, peer, chat, now);
    var c3 := Step(p, Step(p, c1, Timed(StoreLost, now)), Timed(Reconnected, now));
    assert [] + [1] == [1] && [] + [Some(1)] == [Some(1)];
    LostThenReconnected(p, c1, peer, now);
    StillSends(c, c3, peer, chat);
    OneRow(c3.mail.db);
    RelaySends(p, c3, peer, chat, now);
    SecondIs(p, c, peer, chat, now);
    hide SecondRelayed;
    assert c3.mail.db.messages == [c3.mail.db.messages[0]];
  }

  lemma LostThenReconnected(p: Platform, c: Core, peer: QString, now: Msecs)
    requires c.mail.trace.answered < |StoreTags(c.mail.out)| && StoreTags(c.mail.out)[c.mail.trace.answered].Some?
    ensures var d := Step(p, Step(p, c, Timed(StoreLost, now)), Timed(Reconnected, now));
            && RouteTo(d, peer) == RouteTo(c, peer) && d.me == c.me
            && d.mail.db == c.mail.db && d.mail.relayIds == c.mail.relayIds
            && StoreTags(d.mail.out) == StoreTags(c.mail.out)
            && d.mail.trace.answered == c.mail.trace.answered + 1
            && d.mail.trace.missed == c.mail.trace.missed + [StoreTags(c.mail.out)[c.mail.trace.answered].value]
  {
    hide StoreTags;
    if Registration(c.me).Some? { TagsAppend(c.mail.out, ToServer(Registration(c.me).value, Unowned)); }
  }

  lemma StillSends(c: Core, d: Core, peer: QString, chat: Chat)
    requires d.me == c.me && !Refused(c, peer, chat.text)
    ensures !Refused(d, peer, chat.text)
  {
  }

  lemma OneRow(db: Db)
    requires |db.messages| == 1 && db.messages[0].id == 1 && db.nextMessage == 2 && db.outbox == []
    ensures Numbered(db)
  {
  }

  /**
   * From any state in relay mode with nothing sent: the reply to the second STORE settles the first message,
   * whose own STORE was lost, and nothing is left to settle the second, although the server took it.
   */
  lemma LostStoreShiftsReply(p: Platform, c: Core, peer: QString, chat: Chat, now: Msecs)
    requires RouteTo(c, peer) == Relayed && !Refused(c, peer, chat.text) && Fresh(c.mail)
    ensures var d := SecondRelayed(p, c, peer, chat, now);
            && Enabled(d, StoreReply(true)) && OutOfStep(d.mail) && !SettlesEarly(d.mail)
            && Answered(d.mail) == Some(2) && d.mail.relayIds == [1, 2]
            && var m := Step(p, d, Timed(StoreReply(true), now)).mail;
            && !Answerable(m) && |m.db.messages| == 2
            && m.db.messages[0].id == 1 && m.db.messages[0].status == MsgSent
            && m.db.messages[1].id == 2 && m.db.messages[1].status == MsgPending
  {
    hide RouteTo, Refused, StoreTags, SecondRelayed;
    SecondRelayedState(p, c, peer, chat, now);
  }

  // ── over the bootstrap client's sockets ────────────────────────────────────

  /** Connected by TCP only, with nothing waiting, and lately heard of. */
  predicate Live(b: B.Boot, now: Msecs) {
    && b.tcp.Connected? && b.ws.Unconnected? && !b.useWs && b.queue == [] && b.lastResponse == Some(now)
    && !b.firstConnect
  }

  lemma LiveSubmitsOne(b: B.Boot, cmd: Command, now: Msecs)
    requires Live(b, now)
    ensures Live(B.Submitted(b, cmd, now), now)
  {
    hide B.Tagged, B.Ensured;
  }

  lemma {:induction false} LiveSubmits(b: B.Boot, cmds: seq<Command>, now: Msecs)
    requires Live(b, now)
    ensures Live(Submitting(b, cmds, now), now)
  {
    hide Live, B.Submitted;
    if cmds != [] {
      LiveSubmits(b, cmds[..|cmds| - 1], now);
      LiveSubmitsOne(Submitting(b, cmds[..|cmds| - 1], now), cmds[|cmds| - 1], now);
    }
  }

  /** What happens inside, and what the server says, leaves the connection live. */
  lemma LiveStays(p: Platform, cl: Client, m: Moment)
    requires Live(cl.boot, m.now) && (m.what.Line? || (m.what.Inside? && !Wakes(cl.core, m.what.e)))
    ensures Live(After(p, cl, m).boot, m.now) && After(p, cl, m).core == CoreAfter(p, cl, m)
  {
    hide Live, CoreAfter, Handed;
    assert Live(B.Step(cl.boot, B.Response(m.now)), m.now) by { LiveHears(cl.boot, m.now); }
    LiveSubmits(cl.boot, Handed(cl.core, CoreAfter(p, cl, m)), m.now);
    LiveSubmits(B.Step(cl.boot, B.Response(m.now)), Handed(cl.core, CoreAfter(p, cl, m)), m.now);
  }

  lemma LiveHears(b: B.Boot, now: Msecs)
    requires Live(b, now)
    ensures Live(B.Step(b, B.Response(now)), now)
  {
  }

  /** The connection drops with a STORE unanswered, and a new one comes up. */
  function Interrupted(now: Msecs): seq<Moment> {
    [Moment(Transport(B.TcpDown), now), Moment(Missing(true), now), Moment(Transport(B.ReconnectTimeout), now),
     Moment(Transport(B.TcpResolved), now), Moment(Up(B.Tcp), now)]
  }

  lemma AfterOneMore(p: Platform, cl: Client, ms: seq<Moment>)
    requires ms != []
    ensures AfterAll(p, cl, ms) == After(p, AfterAll(p, cl, ms[..|ms| - 1]), ms[|ms| - 1])
  {
    hide After;
  }

  lemma AfterTwo(p: Platform, cl: Client, m: Moment, n: Moment)
    ensures AfterAll(p, cl, [m, n]) == After(p, After(p, cl, m), n)
  {
    hide After;
    assert [m, n][..1] == [m] && [m][..0] == [];
    assert AfterAll(p, cl, [m]) == After(p, cl, m);
  }

  lemma InterruptedStays(p: Platform, cl: Client, now: Msecs)
    requires Live(cl.boot, now)
    ensures var d := AfterAll(p, cl, Interrupted(now));
            && Live(d.boot, now)
            && d.core == Step(p, Step(p, cl.core, Timed(StoreLost, now)), Timed(Reconnected, now))
  {
    hide After, Step, Live;
    var ms := Interrupted(now);
    assert ms[..4] == [ms[0], ms[1], ms[2], ms[3]];
    AfterOneMore(p, cl, ms);
    AfterFour(p, cl, ms[..4]);
    var c1 := After(p, cl, ms[0]);
    var c2 := After(p, c1, ms[1]);
    DropsThenMisses(p, cl, now);
    Redials(p, c2, now);
  }

  /** After the drop, waiting for the reconnect timer. */
  predicate Down(b: B.Boot) {
    b.tcp.Unconnected? && b.ws.Unconnected? && !b.useWs && b.queue == [] && b.reconnect && !b.firstConnect
  }

  lemma DropsThenMisses(p: Platform, cl: Client, now: Msecs)
    requires Live(cl.boot, now)
    ensures var d := After(p, After(p, cl, Moment(Transport(B.TcpDown), now)), Moment(Missing(true), now));
            Down(d.boot) && d.core == Step(p, cl.core, Timed(StoreLost, now))
  {
    hide Step;
  }

  lemma Redials(p: Platform, cl: Client, now: Msecs)
    requires Down(cl.boot)
    ensures var d := After(p, After(p, cl, Moment(Transport(B.ReconnectTimeout), now)),
                           Moment(Transport(B.TcpResolved), now));
            var e := After(p, d, Moment(Up(B.Tcp), now));
            Live(e.boot, now) && e.core == Step(p, cl.core, Timed(Reconnected, now))
  {
    hide Step;
  }

  lemma OkIsReply(b: B.Boot)
    ensures Parsed(b, Prefix(9)) == Some(StoreConfirmed)
  {
    hide Prefix, ParseResponse;
    ParsePrefixed(9, [], b.pendingAuth, b.pendingFind);
    assert Prefix(9) + [] == Prefix(9);
  }

  /** The peer is asked about over a first connection, and found. */
  function Finding(peer: QString, host: QString, port: QString, key: bytes, now: Msecs): seq<Moment> {
    [Moment(Inside(FindPeer(peer)), now), Moment(Transport(B.TcpResolved), now), Moment(Up(B.Tcp), now),
     Moment(Line(FoundLine(host, port, key), false), now)]
  }

  lemma FindingState(p: Platform, me: Me, peer: QString, host: QString, port: QString, key: bytes, now: Msecs)
    requires BAR !in host && BAR !in port
    ensures var cl := AfterAll(p, LoggedIn(me), Finding(peer, host, port, key, now));
            Live(cl.boot, now) && cl.core == Step(p, HavingAsked(me, peer), Timed(LookupReply(peer, key), now))
  {
    hide Step, After, FoundLine, LoggedIn, Asked, InStep, B.Commands;
    var ms, cl0 := Finding(peer, host, port, key, now), LoggedIn(me);
    AfterFour(p, cl0, ms);
    var cl1 := After(p, cl0, ms[0]);
    FirstAsk(p, me, peer, now);
    ConnectsFirst(p, cl1, peer, now);
    var cl3 := After(p, After(p, cl1, ms[1]), ms[2]);
    FirstIsLive(p, cl1, peer, now);
    LoggedInStep(me);
    AfterInStep(p, cl0, ms[0]);
    AfterInStep(p, cl1, ms[1]);
    AfterInStep(p, After(p, cl1, ms[1]), ms[2]);
    FindAsks(p, me, peer, key, now);
    FoundLineReports(p, cl3, host, port, key, false, now);
    LiveStays(p, cl3, ms[3]);
  }

  lemma FirstIsLive(p: Platform, cl: Client, nick: QString, now: Msecs)
    requires cl.boot == B.FRESH.(tcp := B.HostLookup, fallback := true, queue := [Find(nick)],
                                 enqueued := [Find(nick)], pendingFind := nick)
    ensures Live(After(p, After(p, cl, Moment(Transport(B.TcpResolved), now)), Moment(Up(B.Tcp), now)).boot, now)
  {
  }

  /**
   * From login, on the wire: a message is relayed, its STORE goes out and is lost with the connection, the
   * client reconnects and relays a second message, and the server's OK for that one marks the first
   * message sent. The second stays Pending with nothing left to answer. Both STOREs were sent, once each.
   */
  lemma LostStoreOnTheWire(p: Platform, me: Me, peer: QString, chat: Chat, host: QString, port: QString, key: bytes,
                           now: Msecs)
    requires chat.text != [] && peer != [] && peer != me.nick && Exchange(p, me.pub, me.sec, key).Some?
    requires BAR !in host && BAR !in port
    ensures var found := AfterAll(p, LoggedIn(me), Finding(peer, host, port, key, now));
            var first := AfterAll(p, found, [Moment(Inside(Expired(0)), now), Moment(Inside(Send(peer, chat)), now)]);
            var again := AfterAll(p, first, Interrupted(now));
            var second := After(p, again, Moment(Inside(Send(peer, chat)), now));
            var end := After(p, second, Moment(Line(Prefix(9), false), now));
            && first.boot.queue == [] && StoreTags(first.core.mail.out) == [Some(1)]
            && second.boot.queue == [] && StoreTags(second.core.mail.out) == [Some(1), Some(2)]
            && Answerable(second.core.mail) && Answered(second.core.mail) == Some(2)
            && var m := end.core.mail;
            && !Answerable(m) && |m.db.messages| == 2
            && m.db.messages[0].id == 1 && m.db.messages[0].status == MsgSent
            && m.db.messages[1].id == 2 && m.db.messages[1].status == MsgPending
  {
    hide Exchange, AfterAll, After, Step, LoggedIn, StoreTags, Finding, Interrupted, RouteTo, Prefix, Refused, Answered,
      Answerable, Live, Fresh, Numbered, HavingAsked;
    var found := AfterAll(p, LoggedIn(me), Finding(peer, host, port, key, now));
    var failing, sending := Moment(Inside(Expired(0)), now), Moment(Inside(Send(peer, chat)), now);
    FindingState(p, me, peer, host, port, key, now);
    AfterTwo(p, found, failing, sending);
    InsideStep(p, found, Expired(0), now);
    FailsToRelay(p, me, peer, key, now);
    Refuses(After(p, found, failing).core, me, peer, chat);
    LostOnTheWire(p, After(p, found, failing), peer, chat, now);
  }

  lemma LostOnTheWire(p: Platform, failed: Client, peer: QString, chat: Chat, now: Msecs)
    requires Live(failed.boot, now) && RouteTo(failed.core, peer) == Relayed && !Refused(failed.core, peer, chat.text)
    requires Fresh(failed.core.mail)
    ensures var first := After(p, failed, Moment(Inside(Send(peer, chat)), now));
            var again := AfterAll(p, first, Interrupted(now));
            var second := After(p, again, Moment(Inside(Send(peer, chat)), now));
            var end := After(p, second, Moment(Line(Prefix(9), false), now));
            && first.boot.queue == [] && StoreTags(first.core.mail.out) == [Some(1)]
            && second.boot.queue == [] && StoreTags(second.core.mail.out) == [Some(1), Some(2)]
            && Answerable(second.core.mail) && Answered(second.core.mail) == Some(2)
            && var m := end.core.mail;
            && !Answerable(m) && |m.db.messages| == 2
            && m.db.messages[0].id == 1 && m.db.messages[0].status == MsgSent
            && m.db.messages[1].id == 2 && m.db.messages[1].status == MsgPending
  {
    hide AfterAll, After, Step, StoreTags, Interrupted, SendMessage, RouteTo, Prefix, Refused, SecondRelayed, Live;
    var sending, ok := Moment(Inside(Send(peer, chat)), now), Moment(Line(Prefix(9), false), now);
    var first := After(p, failed, sending);
    InsideStep(p, failed, Send(peer, chat), now);
    SendStep(p, failed.core, peer, chat, now);
    FreshIsNumbered();
    RelaySends(p, failed.core, peer, chat, now);
    assert [] + [Some(1)] == [Some(1)];
    InterruptedStays(p, first, now);
    var again := AfterAll(p, first, Interrupted(now));
    InsideStep(p, again, Send(peer, chat), now);
    SendStep(p, again.core, peer, chat, now);
    SecondIs(p, failed.core, peer, chat, now);
    LostStoreShiftsReply(p, failed.core, peer, chat, now);
    SecondRelayedState(p, failed.core, peer, chat, now);
    OkSettles(p, After(p, again, sending), now);
  }

  lemma FreshIsNumbered()
    ensures Numbered(Db(true, [], [], 1, 1))
  {
  }

  lemma OkSettles(p: Platform, cl: Client, now: Msecs)
    requires Live(cl.boot, now)
    ensures After(p, cl, Moment(Line(Prefix(9), false), now)).core == Step(p, cl.core, Timed(StoreReply(true), now))
  {
    hide Step, After, Prefix, Live, Parsed;
    OkIsReply(cl.boot);
    LiveStays(p, cl, Moment(Line(Prefix(9), false), now));
  }

  lemma InsideStep(p: Platform, cl: Client, e: Event, now: Msecs)
    requires Live(cl.boot, now) && (e.Send? || e.Expired?)
    ensures var d := After(p, cl, Moment(Inside(e), now));
            Live(d.boot, now) && d.boot.queue == [] && d.core == Step(p, cl.core, Timed(e, now))
  {
    hide Step, After;
    LiveStays(p, cl, Moment(Inside(e), now));
  }

  lemma SendStep(p: Platform, c: Core, peer: QString, chat: Chat, now: Msecs)
    ensures Step(p, c, Timed(Send(peer, chat), now)) == SendMessage(p, c, peer, chat, now)
  {
    hide SendMessage;
  }

  lemma SecondIs(p: Platform, c: Core, peer: QString, chat: Chat, now: Msecs)
    ensures var lost := Step(p, SendMessage(p, c, peer, chat, now), Timed(StoreLost, now));
            SendMessage(p, Step(p, lost, Timed(Reconnected, now)), peer, chat, now)
              == SecondRelayed(p, c, peer, chat, now)
  {
  }

  lemma Refuses(c: Core, me: Me, peer: QString, chat: Chat)
    requires c.me == me && chat.text != [] && peer != [] && peer != me.nick
    ensures !Refused(c, peer, chat.text)
  {
  }

  lemma FailsToRelay(p: Platform, me: Me, peer: QString, key: bytes, now: Msecs)
    requires Exchange(p, me.pub, me.sec, key).Some?
    ensures var c := Step(p, Step(p, HavingAsked(me, peer), Timed(LookupReply(peer, key), now)),
                          Timed(Expired(0), now));
            RouteTo(c, peer) == Relayed && c.me == me && Fresh(c.mail) && Numbered(c.mail.db)
  {
    hide Exchange, Run, RouteTo, Asked, StoreTags;
    FailingRelays(p, me, peer, key, now);
    FailingIs(p, me, peer, key, now);
    TagsAppend([], ToServer(Find(peer), Unowned));
    assert [] + [ToServer(Find(peer), Unowned)] == [ToServer(Find(peer), Unowned)];
    NoTags();
    hide Step;
  }

  lemma NoTags()
    ensures StoreTags([]) == []
  {
  }

  lemma FailingIs(p: Platform, me: Me, peer: QString, key: bytes, now: Msecs)
    ensures Run(p, Start(me), Failing(peer, key, now))
         == Step(p, Step(p, HavingAsked(me, peer), Timed(LookupReply(peer, key), now)), Timed(Expired(0), now))
  {
    hide Step;
    RunThree(p, Start(me), Timed(FindPeer(peer), now), Timed(LookupReply(peer, key), now), Timed(Expired(0), now));
    FindAsks(p, me, peer, key, now);
  }
}
