/**
 * What every reaction of the core keeps: the mail moves within any relation closed under the mail moves,
 * unreadable blobs stay accounted for, and sessions and verification change only where they should.
 */
module CoreInvariants {
  import opened Bytes
  import opened Platform
  import opened DataStream
  import opened Crypto
  import opened Protocol
  import opened LocalDb
  import opened Network
  import opened Core
  import opened MailMoves

  // ── the inbox ──────────────────────────────────────────────────────────────

  function Arrivals(buffer: seq<Held>): set<nat> {
    set h | h in buffer :: h.arrival
  }

  predicate InOrder(buffer: seq<Held>) {
    forall i, j :: 0 <= i < j < |buffer| ==> buffer[i].arrival < buffer[j].arrival
  }

  /** Every non-empty blob that arrived is consumed once, dropped once, or still buffered, in order. */
  ghost predicate InboxInv(b: Inbox) {
    && (forall h :: h in b.buffer ==> h.arrival < |b.arrived| && b.arrived[h.arrival] == h.data)
    && InOrder(b.buffer)
    && b.consumed !! b.dropped && b.consumed !! Arrivals(b.buffer) && b.dropped !! Arrivals(b.buffer)
    && (forall n: nat :: n < |b.arrived| <==> n in b.consumed + b.dropped + Arrivals(b.buffer))
  }

  lemma Arrive(b: Inbox, data: bytes)
    requires InboxInv(b)
    ensures var n, box := |b.arrived|, b.(arrived := b.arrived + [data]);
            && InboxInv(box.(buffer := box.buffer + [Held(data, n)]))
            && InboxInv(box.(dropped := box.dropped + {n}))
            && InboxInv(box.(consumed := box.consumed + {n}))
  {
    var n := |b.arrived|;
    var h := Held(data, n);
    assert n !in b.consumed + b.dropped + Arrivals(b.buffer);
    assert Arrivals(b.buffer + [h]) == Arrivals(b.buffer) + {n} by {
      assert forall x :: x in b.buffer + [h] <==> x in b.buffer || x == h;
    }
    hide Arrivals;
  }

  // ── one reaction to the next ───────────────────────────────────────────────

  ghost predicate SameSessions(c: Core, d: Core) {
    forall peer: QString :: SessionOf(d, peer) == SessionOf(c, peer)
  }

  predicate SameClaims(a: Net, b: Net) {
    a.pending == b.pending && a.claimed == b.claimed && a.authenticated == b.authenticated && a.claims == b.claims
  }

  ghost predicate SameAside(c: Core, d: Core) {
    SameClaims(c.net, d.net) && d.verify == c.verify && d.me == c.me
  }

  /** From `c` to `d`: a move of the mail, with verification untouched and the identity the same. */
  ghost predicate Goes(R: Relation, c: Core, d: Core, now: Msecs, discards: bool) {
    R(c.mail, d.mail, now, discards) && SameAside(c, d)
  }

  ghost predicate Moves(R: Relation, c: Core, d: Core, now: Msecs) {
    Goes(R, c, d, now, false)
  }

  /** A quiet move also leaves sessions and inbox alone. */
  ghost predicate Quiet(R: Relation, c: Core, d: Core, now: Msecs) {
    Moves(R, c, d, now) && SameSessions(c, d) && d.inbox == c.inbox
  }

  ghost predicate Evolves(R: Relation, c: Core, d: Core, now: Msecs) {
    Moves(R, c, d, now) && InboxInv(d.inbox)
  }

  ghost predicate Sound(R: Relation, c: Core, now: Msecs) {
    Holds(R, c.mail, now) && InboxInv(c.inbox)
  }

  lemma Then(R: Relation, c: Core, d: Core, e: Core, now: Msecs, discards: bool)
    requires MoveClosed(R) && Moves(R, c, d, now) && Goes(R, d, e, now, discards)
    ensures Goes(R, c, e, now, discards)
  {
    hide MoveClosed;
    Chain(R, c.mail, d.mail, e.mail, now, now, false, discards);
  }

  lemma TransmitQuietly(R: Relation, p: Platform, c: Core, peer: QString, plain: bytes, now: Msecs)
    requires MoveClosed(R) && Holds(R, c.mail, now)
    ensures Quiet(R, c, Transmitted(p, c, peer, plain, Unowned), now)
  {
    var d := Transmitted(p, c, peer, plain, Unowned);
    hide MoveClosed, Encrypt, RelayEnvelope, PeerEnvelope, Writes, RelaySet;
    if d.mail != c.mail {
      Log(R, c.mail, d.mail.out[|d.mail.out| - 1], now);
    }
  }

  /** Whatever a decrypted packet holds, its handlers move quietly. */
  lemma HandleQuietly(R: Relation, p: Platform, c: Core, plain: bytes, hint: QString, now: Msecs)
    requires MoveClosed(R) && Holds(R, c.mail, now)
    ensures Quiet(R, c, PlainHandled(p, c, plain, hint, now), now)
  {
    hide MoveClosed, Transmitted, Deserialize, DecodeChat, DecodeReceipt, Serialize, Saved, MarkedRead;
    match Deserialize(plain)
    case None =>
    case Some(packet) =>
      if packet.kind == CHAT_MESSAGE {
        var chat := DecodeChat(packet.data, hint);
        var c1 := ChatReceived(c, chat, packet.timestamp);
        StoreIncoming(R, c.mail, chat, packet.timestamp, now);
        End(R, c.mail, c1.mail, now, false);
        TransmitQuietly(R, p, c1, chat.sender,
          Serialize(Packet(READ_RECEIPT, now, EncodeReceipt(Receipt(c.me.nick, Secs(packet.timestamp))))), now);
        Then(R, c, c1, PlainHandled(p, c, plain, hint, now), now, false);
      } else if packet.kind == READ_RECEIPT {
        StoreReceipt(R, c.mail, DecodeReceipt(packet.data, hint), now);
      }
  }

  lemma ReceiveEvolves(R: Relation, p: Platform, c: Core, data: bytes, now: Msecs)
    requires MoveClosed(R) && Sound(R, c, now)
    ensures Evolves(R, c, DataReceived(p, c, data, now), now) && SameSessions(c, DataReceived(p, c, data, now))
  {
    hide MoveClosed, InboxInv, PlainHandled, Read, SenderOf;
    if data != [] {
      Arrive(c.inbox, data);
      var n := |c.inbox.arrived|;
      var box := c.inbox.(arrived := c.inbox.arrived + [data]);
      match Read(p, c, data)
      case Plain(sender, plain) =>
        var c2 := SenderMet(p, c, data).(inbox := box.(consumed := box.consumed + {n}));
        HandleQuietly(R, p, c2, plain, sender, now);
        Then(R, c, c2, DataReceived(p, c, data, now), now, false);
      case _ =>
    }
  }

  // ── the retry pass ─────────────────────────────────────────────────────────

  /** The blobs a pass keeps and the arrivals it consumes, by what can be read beforehand. */
  function KeptOf(p: Platform, c: Core, todo: seq<Held>): seq<Held> {
    if todo == [] then []
    else
      var h := todo[|todo| - 1];
      KeptOf(p, c, todo[..|todo| - 1]) + if Read(p, c, h.data).Plain? then [] else [h]
  }

  function TakenOf(p: Platform, c: Core, todo: seq<Held>): set<nat> {
    if todo == [] then {}
    else
      var h := todo[|todo| - 1];
      TakenOf(p, c, todo[..|todo| - 1]) + if Read(p, c, h.data).Plain? then {h.arrival} else {}
  }

  lemma SameReading(p: Platform, c: Core, d: Core, data: bytes)
    requires SameSessions(c, d)
    ensures Read(p, d, data) == Read(p, c, data)
  {
    hide SessionOf, Decrypt, SenderOf;
  }

  lemma RetryQuietly(R: Relation, p: Platform, c: Core, h: Held, now: Msecs)
    requires MoveClosed(R) && Holds(R, c.mail, now)
    ensures var d := Retried(p, c, h, now);
            && Moves(R, c, d, now) && SameSessions(c, d)
            && d.inbox == (if Read(p, c, h.data).Plain? then c.inbox.(consumed := c.inbox.consumed + {h.arrival})
                           else c.inbox)
  {
    hide MoveClosed, PlainHandled, Read, SenderOf;
    match Read(p, c, h.data)
    case Plain(sender, plain) =>
      var c2 := SenderMet(p, c, h.data).(inbox := c.inbox.(consumed := c.inbox.consumed + {h.arrival}));
      HandleQuietly(R, p, c2, plain, sender, now);
      Then(R, c, c2, Retried(p, c, h, now), now, false);
    case _ =>
  }

  /** A pass is a stable partition, decided blob by blob by the sessions it started with. */
  lemma {:induction false} PassPartitions(R: Relation, p: Platform, c: Core, todo: seq<Held>, now: Msecs)
    requires MoveClosed(R) && Holds(R, c.mail, now)
    ensures var pass := RetryPass(p, c, todo, now);
            && pass.remaining == KeptOf(p, c, todo)
            && Moves(R, c, pass.core, now) && SameSessions(c, pass.core)
            && pass.core.inbox == c.inbox.(consumed := c.inbox.consumed + TakenOf(p, c, todo))
  {
    hide MoveClosed, Retried, Read;
    if todo == [] {
    } else {
      var front, h := todo[..|todo| - 1], todo[|todo| - 1];
      PassPartitions(R, p, c, front, now);
      var before := RetryPass(p, c, front, now);
      End(R, c.mail, before.core.mail, now, false);
      RetryQuietly(R, p, before.core, h, now);
      SameReading(p, c, before.core, h.data);
      Then(R, c, before.core, Retried(p, before.core, h, now), now, false);
    }
  }

  lemma ArrivalsAppend(buffer: seq<Held>, h: Held)
    ensures Arrivals(buffer + [h]) == Arrivals(buffer) + {h.arrival}
    ensures buffer + [] == buffer
  {
    assert forall x :: x in buffer + [h] <==> x in buffer || x == h;
  }

  lemma LastArrival(front: seq<Held>, h: Held)
    requires InOrder(front + [h])
    ensures InOrder(front) && forall x :: x in front ==> x.arrival < h.arrival
    ensures h.arrival !in Arrivals(front)
  {
    var all := front + [h];
    assert all[|front|] == h;
    assert forall i :: 0 <= i < |front| ==> all[i] == front[i];
  }

  lemma OrderAppend(front: seq<Held>, h: Held)
    requires InOrder(front) && forall x :: x in front ==> x.arrival < h.arrival
    ensures InOrder(front + [h])
  {
    assert forall i :: 0 <= i < |front| ==> front[i] in front;
  }

  lemma {:induction false} PartitionOrder(p: Platform, c: Core, todo: seq<Held>)
    requires InOrder(todo)
    ensures InOrder(KeptOf(p, c, todo)) && (forall h :: h in KeptOf(p, c, todo) ==> h in todo)
    ensures Arrivals(todo) == Arrivals(KeptOf(p, c, todo)) + TakenOf(p, c, todo)
    ensures Arrivals(KeptOf(p, c, todo)) !! TakenOf(p, c, todo)
  {
    hide Read, Arrivals, InOrder;
    if todo == [] {
      assert Arrivals([]) == {} by { NoArrivals(); }
    } else {
      var front, h := todo[..|todo| - 1], todo[|todo| - 1];
      var kept := KeptOf(p, c, front);
      assert todo == front + [h];
      LastArrival(front, h);
      PartitionOrder(p, c, front);
      ArrivalsAppend(front, h);
      ArrivalsAppend(kept, h);
      OrderAppend(kept, h);
    }
  }

  lemma NoArrivals()
    ensures Arrivals([]) == {} && InOrder([])
  {
  }

  lemma InboxAfterPass(b: Inbox, kept: seq<Held>, taken: set<nat>)
    requires InboxInv(b) && InOrder(kept) && (forall h :: h in kept ==> h in b.buffer)
    requires Arrivals(b.buffer) == Arrivals(kept) + taken && Arrivals(kept) !! taken
    ensures InboxInv(b.(consumed := b.consumed + taken, buffer := kept))
  {
    hide Arrivals, InOrder;
    assert taken <= Arrivals(b.buffer) && Arrivals(kept) <= Arrivals(b.buffer);
    assert b.consumed + b.dropped + Arrivals(b.buffer) == b.consumed + taken + b.dropped + Arrivals(kept);
  }

  lemma PendingEvolves(R: Relation, p: Platform, c: Core, now: Msecs)
    requires MoveClosed(R) && Sound(R, c, now)
    ensures Evolves(R, c, PendingTried(p, c, now), now) && SameSessions(c, PendingTried(p, c, now))
  {
    var todo := c.inbox.buffer;
    PassPartitions(R, p, c, todo, now);
    PartitionOrder(p, c, todo);
    InboxAfterPass(c.inbox, KeptOf(p, c, todo), TakenOf(p, c, todo));
    hide MoveClosed, RetryPass, KeptOf, TakenOf, Arrivals, InboxInv;
  }

  // ── sending ────────────────────────────────────────────────────────────────

  lemma SendMoves(R: Relation, p: Platform, c: Core, peer: QString, chat: Chat, now: Msecs)
    requires MoveClosed(R) && Holds(R, c.mail, now)
    ensures Moves(R, c, MessageSent(p, c, peer, chat, now), now) && MessageSent(p, c, peer, chat, now).inbox == c.inbox
  {
    hide MoveClosed, Encrypt, RelayEnvelope, PeerEnvelope, Writes, RelaySet, MessageBytes, Recorded, Saved;
    var id, packet := SavedId(c.mail.db), MessageBytes(chat, now);
    var c1 := MessageSaved(c, peer, chat, now);
    var c2 := Transmitted(p, c1, peer, packet, FromMessage(id));
    assert RouteTo(c1, peer) == RouteTo(c, peer);
    if RouteTo(c, peer) == Queued {
      SendHeld(R, c.mail, peer, chat, now);
    } else {
      SendNow(R, c.mail, peer, chat, c2.mail.out[|c1.mail.out|], now);
    }
  }

  // ── draining ───────────────────────────────────────────────────────────────

  /** Packets wait for a peer without a key: a relay flush would discard them. */
  predicate Discards(c: Core, peer: QString) {
    Peeked(c.mail.db, peer) != [] && !SessionOf(c, peer).ready
  }

  lemma RelayFlushGoes(R: Relation, p: Platform, c: Core, peer: QString, now: Msecs)
    requires MoveClosed(R) && Holds(R, c.mail, now)
    ensures var d := RelayFlushed(p, c, peer);
            Goes(R, c, d, now, Discards(c, peer)) && d.inbox == c.inbox && d.net == c.net && SameSessions(c, d)
  {
    hide MoveClosed, Drained, Encrypt, RelayEnvelope;
    var packets, s := Peeked(c.mail.db, peer), SessionOf(c, peer);
    if packets != [] {
      var entries := if s.ready then RelayEntries(p, c.me, s, c.drawn, peer, packets) else [];
      DrainPackets(R, c.mail, peer, entries, !s.ready, now);
    }
  }

  lemma PeerFlushMoves(R: Relation, p: Platform, c: Core, peer: QString, now: Msecs)
    requires MoveClosed(R) && Holds(R, c.mail, now)
    ensures var d := PeerFlushed(p, c, peer); Moves(R, c, d, now) && d.inbox == c.inbox
  {
    hide MoveClosed, Drained, Encrypt, Broadcast;
    var packets, s := Peeked(c.mail.db, peer), SessionOf(c, peer);
    if packets != [] {
      var entries := PeerEntries(p, c.me, s, c.drawn, peer, packets);
      DrainPackets(R, c.mail, peer, entries, false, now);
      BroadcastKeepsClaims(c.net, entries);
    }
  }

  lemma {:induction false} BroadcastKeepsClaims(net: Net, entries: seq<Outbound>)
    ensures SameClaims(net, Broadcast(net, entries)) && Broadcast(net, entries).connections == net.connections
  {
    if entries != [] { BroadcastKeepsClaims(net, entries[..|entries| - 1]); }
  }

  lemma P2pFailedGoes(R: Relation, p: Platform, c: Core, peer: QString, now: Msecs)
    requires MoveClosed(R) && Holds(R, c.mail, now)
    ensures var d := P2pFailed(p, c, peer);
            Goes(R, c, d, now, Discards(c, peer)) && d.inbox == c.inbox
  {
    hide MoveClosed, RelayFlushed, RelaySet;
    var c1 := CryptoFor(c.(peers := RelaySet(c.peers, peer, true)), peer);
    RelayFlushGoes(R, p, c1, peer, now);
    Then(R, c, c1, RelayFlushed(p, c1, peer), now, Discards(c1, peer));
  }

  lemma DialGoes(R: Relation, p: Platform, c: Core, peer: QString, now: Msecs)
    requires MoveClosed(R) && Holds(R, c.mail, now)
    ensures var d := HostDialled(p, c, peer);
            Goes(R, c, d, now, c.net.skipP2p && Discards(c, peer)) && d.inbox == c.inbox
  {
    hide MoveClosed, P2pFailed;
    var c1 := c.(net := Dialled(c.net, peer));
    if c.net.skipP2p {
      P2pFailedGoes(R, p, c1, peer, now);
      Then(R, c, c1, P2pFailed(p, c1, peer), now, Discards(c1, peer));
    } else {
    }
  }

  // ── keys, lookups ──────────────────────────────────────────────────────────

  lemma AuthenticatedEvolves(R: Relation, p: Platform, c: Core, nick: QString, key: bytes, now: Msecs)
    requires MoveClosed(R) && Sound(R, c, now)
    ensures Evolves(R, c, Authenticated(p, c, nick, key, now), now)
  {
    hide MoveClosed, InboxInv, RelaySet, WithSecret, PendingTried, PeerFlushed;
    var c1 := Keyed(p, c, nick, key);
    if SessionOf(c1, nick).ready {
      var c2 := c1.(peers := RelaySet(c1.peers, nick, false));
      PendingEvolves(R, p, c2, now);
      var c3 := PendingTried(p, c2, now);
      Then(R, c, c2, c3, now, false);
      End(R, c2.mail, c3.mail, now, false);
      PeerFlushMoves(R, p, c3, nick, now);
      Then(R, c, c3, PeerFlushed(p, c3, nick), now, false);
    }
  }

  lemma ContactEvolves(R: Relation, p: Platform, c: Core, nick: QString, key: bytes, now: Msecs)
    requires MoveClosed(R) && Sound(R, c, now)
    ensures Evolves(R, c, ContactFound(p, c, nick, key, now), now)
  {
    hide MoveClosed, InboxInv, RelaySet, WithSecret, PendingTried, RelayFlushed, HostDialled, SessionOf;
    var unkeyed := !SessionOf(c, nick).ready;
    var c1 := if unkeyed then Keyed(p, c, nick, key) else c;
    if SessionOf(c1, nick).ready {
      var c2 := if unkeyed then PendingTried(p, c1, now) else c1;
      if unkeyed { PendingEvolves(R, p, c1, now); }
      Then(R, c, c1, c2, now, false);
      End(R, c1.mail, c2.mail, now, false);
      assert SessionOf(c2, nick).ready;
      var c3 := c2.(peers := Touched(c2.peers, nick));
      Then(R, c, c2, c3, now, false);
      assert SessionOf(c3, nick).ready by { SameSession(c2, c3, nick); }
      if InRelay(c3, nick) {
        RelayFlushGoes(R, p, c3, nick, now);
        Then(R, c, c3, RelayFlushed(p, c3, nick), now, false);
      } else if c3.net.connections == [] {
        DialGoes(R, p, c3, nick, now);
        Then(R, c, c3, HostDialled(p, c3, nick), now, false);
      }
    }
  }

  lemma SameSession(c: Core, d: Core, peer: QString)
    requires c.sessions == d.sessions
    ensures SessionOf(c, peer) == SessionOf(d, peer)
  {
  }

  // ── mode changes and relayed messages ──────────────────────────────────────

  lemma FlushIfReadyMoves(R: Relation, p: Platform, c: Core, peer: QString, now: Msecs)
    requires MoveClosed(R) && Holds(R, c.mail, now)
    ensures var d := FlushedIfReady(p, c, peer); Moves(R, c, d, now) && d.inbox == c.inbox
  {
    hide MoveClosed, RelayFlushed;
    var c1 := CryptoFor(c, peer);
    RelayFlushGoes(R, p, c1, peer, now);
    if SessionOf(c1, peer).ready {
      Then(R, c, c1, RelayFlushed(p, c1, peer), now, false);
    }
  }

  lemma {:induction false} FlushAllMoves(R: Relation, p: Platform, c: Core, order: seq<QString>, now: Msecs)
    requires MoveClosed(R) && Holds(R, c.mail, now)
    ensures var d := FlushedAll(p, c, order); Moves(R, c, d, now) && d.inbox == c.inbox
  {
    hide MoveClosed, FlushedIfReady;
    if order == [] {
    } else {
      FlushAllMoves(R, p, c, order[..|order| - 1], now);
      var before := FlushedAll(p, c, order[..|order| - 1]);
      End(R, c.mail, before.mail, now, false);
      FlushIfReadyMoves(R, p, before, order[|order| - 1], now);
      Then(R, c, before, FlushedIfReady(p, before, order[|order| - 1]), now, false);
    }
  }

  lemma LostMoves(R: Relation, p: Platform, c: Core, conn: nat, now: Msecs)
    requires MoveClosed(R) && Holds(R, c.mail, now)
    ensures var d := ConnectionLost(p, c, conn); Moves(R, c, d, now) && d.inbox == c.inbox
  {
    hide MoveClosed, FlushedAll, RemoveAll;
    var c1 := c.(net := Disconnected(c.net, conn));
    var c2 := c1.(peers := AllRelay(c1.peers));
    FlushAllMoves(R, p, c2, c1.peers.order, now);
    Then(R, c, c2, FlushedAll(p, c2, c1.peers.order), now, false);
  }

  lemma AskMoves(R: Relation, c: Core, cmd: Command, now: Msecs)
    requires MoveClosed(R) && Holds(R, c.mail, now)
    ensures var d := ServerSent(c, cmd, Unowned); Moves(R, c, d, now) && d.inbox == c.inbox
  {
    hide MoveClosed;
    Log(R, c.mail, ToServer(cmd, Unowned), now);
  }

  lemma {:induction false} RetryAllMoves(R: Relation, c: Core, order: seq<QString>, now: Msecs)
    requires MoveClosed(R) && Holds(R, c.mail, now)
    ensures var d := RetriedAll(c, order); Moves(R, c, d, now) && d.inbox == c.inbox
  {
    hide MoveClosed;
    if order == [] {
    } else {
      var peer := order[|order| - 1];
      RetryAllMoves(R, c, order[..|order| - 1], now);
      var before := RetriedAll(c, order[..|order| - 1]);
      End(R, c.mail, before.mail, now, false);
      if InRelay(before, peer) {
        var c1 := before.(peers := RelayLeft(before.peers, peer));
        AskMoves(R, c1, Find(peer), now);
        Then(R, before, c1, Retry(before, peer), now, false);
        Then(R, c, before, Retry(before, peer), now, false);
      }
    }
  }

  lemma RelayEvolves(R: Relation, p: Platform, c: Core, blob: bytes, now: Msecs)
    requires MoveClosed(R) && Sound(R, c, now)
    ensures Evolves(R, c, RelayReceived(p, c, blob, now), now)
  {
    hide MoveClosed, InboxInv, DataReceived, PlainHandled, ParseRelay, Decrypt, WithSecret, RelaySet;
    match ParseRelay(p, blob)
    case None => ReceiveEvolves(R, p, c, blob, now);
    case Some(r) =>
      var c1 := KeyedIfNeeded(p, CryptoFor(c, r.sender), r.sender, r.key);
      var c2 := RelayEntered(c1, r.sender);
      var plain := Decrypt(p, SessionOf(c1, r.sender), r.encrypted);
      HandleQuietly(R, p, c2, plain, r.sender, now);
      Then(R, c, c2, PlainHandled(p, c2, plain, r.sender, now), now, false);
  }

  lemma {:induction false} FetchEvolves(R: Relation, p: Platform, c: Core, blobs: seq<bytes>, now: Msecs)
    requires MoveClosed(R) && Sound(R, c, now)
    ensures Evolves(R, c, Fetched(p, c, blobs, now), now)
  {
    hide MoveClosed, InboxInv, RelayReceived;
    if blobs == [] {
    } else {
      var before := Fetched(p, c, blobs[..|blobs| - 1], now);
      FetchEvolves(R, p, c, blobs[..|blobs| - 1], now);
      End(R, c.mail, before.mail, now, false);
      RelayEvolves(R, p, before, blobs[|blobs| - 1], now);
      Then(R, c, before, RelayReceived(p, before, blobs[|blobs| - 1], now), now, false);
    }
  }
}
