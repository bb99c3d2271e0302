/** What the invariants say of every state reachable from login, and where a guarantee stops. */
module Guarantees {
  import opened Bytes
  import opened Platform
  import opened DataStream
  import opened Crypto
  import opened LocalDb
  import opened Network
  import opened Core
  import opened MailInvariants
  import opened CoreInvariants
  import opened CoreRuns
  import opened EndToEnd

  /** A state some run reaches from login, at the time its last event happened. */
  ghost predicate Reachable(p: Platform, c: Core, now: Msecs) {
    exists me, events, t: Msecs :: InTime(events, t) && now == EndTime(events, t) && c == Run(p, Start(me), events)
  }

  lemma ReachableInvariant(p: Platform, c: Core, now: Msecs)
    requires Reachable(p, c, now)
    ensures Invariant(c, now)
  {
    hide Run, Invariant, InTime, EndTime;
    var me, events, t: Msecs :| InTime(events, t) && now == EndTime(events, t) && c == Run(p, Start(me), events);
    ReachableSound(p, me, events, t);
  }

  lemma ReachableMail(p: Platform, c: Core, now: Msecs)
    requires Reachable(p, c, now)
    ensures MailInv(c.mail, now)
  {
    hide Reachable, Invariant;
    ReachableInvariant(p, c, now);
    InvariantGives(c, now);
  }

  // ── the outbox ─────────────────────────────────────────────────────────────

  /**
   * Per peer and in order: packets queued = packets drained ++ packets still waiting, and the packets
   * found in the transport log are the drained ones that were not discarded, each once.
   */
  lemma OutboxConservation(p: Platform, c: Core, now: Msecs, peer: QString)
    requires Reachable(p, c, now)
    ensures var t := c.mail.trace;
            && Blobs(t.queued, peer) == DrainedTo(t.drained, peer) + Blobs(c.mail.db.outbox, peer)
            && KeptTo(t.drained, peer) == FlushedTo(c.mail.out, peer)
            && (!AnyLost(t.drained) ==>
                  Blobs(t.queued, peer) == FlushedTo(c.mail.out, peer) + Blobs(c.mail.db.outbox, peer))
  {
    hide Blobs, DrainedTo, KeptTo, FlushedTo, AnyLost, Watermark, Numbered, Correlated, Accounted, Reachable;
    ReachableMail(p, c, now);
    NothingLost(c.mail.trace.drained, peer);
  }

  lemma {:induction false} NothingLost(drained: seq<Drain>, peer: QString)
    ensures !AnyLost(drained) ==> KeptTo(drained, peer) == DrainedTo(drained, peer)
  {
    if drained != [] && !AnyLost(drained) {
      var front := drained[..|drained| - 1];
      assert !drained[|drained| - 1].lost;
      assert forall i :: 0 <= i < |front| ==> front[i] == drained[i];
      NothingLost(front, peer);
    }
  }

  /** Packets are lost exactly by runs in which a peer-to-peer failure meets a peer without a key. */
  lemma LossOnlyWithoutKey(p: Platform, me: Me, events: seq<Timed>, t: Msecs)
    requires InTime(events, t)
    ensures AnyLost(Run(p, Start(me), events).mail.trace.drained) <==> DiscardsSomewhere(p, Start(me), events)
  {
    hide Run, DiscardsSomewhere, AnyLost, Invariant, Reachable;
    ReachableSound(p, me, events, t);
  }

  /** A relay flush with a key sends exactly this peer's packets, in order, and touches no other peer's. */
  lemma RelayFlushSends(p: Platform, c: Core, peer: QString, other: QString)
    requires SessionOf(c, peer).ready && c.mail.db.ready && other != peer
    ensures var d := RelayFlushed(p, c, peer);
            && Peeked(d.mail.db, peer) == [] && d.mail.db.ready && SessionOf(d, other) == SessionOf(c, other)
            && FlushedTo(d.mail.out, peer) == FlushedTo(c.mail.out, peer) + Peeked(c.mail.db, peer)
            && Peeked(d.mail.db, other) == Peeked(c.mail.db, other)
            && FlushedTo(d.mail.out, other) == FlushedTo(c.mail.out, other)
  {
    var packets, s := Peeked(c.mail.db, peer), SessionOf(c, peer);
    var entries := RelayEntries(p, c.me, s, c.drawn, peer, packets);
    WithoutBlobs(c.mail.db.outbox, peer, peer);
    WithoutBlobs(c.mail.db.outbox, peer, other);
    EntriesFlushed(c.mail.out, entries, peer, packets, peer);
    EntriesFlushed(c.mail.out, entries, peer, packets, other);
    hide Blobs, Without, FlushedTo, Encrypt, RelayEnvelope, Drains;
    assert FlushedTo(c.mail.out, peer) + [] == FlushedTo(c.mail.out, peer);
  }

  lemma FlushOthers(p: Platform, c: Core, peer: QString, other: QString)
    requires c.mail.db.ready
    ensures var d := FlushedIfReady(p, c, other);
            && d.mail.db.ready && SessionOf(d, peer) == SessionOf(c, peer)
            && (peer != other ==> Peeked(d.mail.db, peer) == Peeked(c.mail.db, peer))
            && (Peeked(c.mail.db, peer) == [] ==> Peeked(d.mail.db, peer) == [])
            && (peer == other && SessionOf(c, peer).ready ==> Peeked(d.mail.db, peer) == [])
  {
    hide RelayFlushed, Peeked;
    var c1 := CryptoFor(c, other);
    if Peeked(c.mail.db, other) != [] && SessionOf(c1, other).ready {
      if peer != other {
        RelayFlushSends(p, c1, other, peer);
      } else {
        RelayFlushSends(p, c1, other, other + [0]);
        FlushKeepsSessions(p, c1, other);
      }
    }
  }

  lemma FlushKeepsSessions(p: Platform, c: Core, peer: QString)
    ensures RelayFlushed(p, c, peer).sessions == c.sessions
  {
    hide Drained, RelayEntries;
  }

  /** When the last connection goes, every listed peer with a key has its outbox sent by relay. */
  lemma {:induction false} LostConnectionsFlush(p: Platform, c: Core, order: seq<QString>, peer: QString)
    requires c.mail.db.ready
    ensures var d := FlushedAll(p, c, order);
            && d.mail.db.ready && SessionOf(d, peer) == SessionOf(c, peer)
            && (peer in order && SessionOf(c, peer).ready ==> Peeked(d.mail.db, peer) == [])
            && (peer !in order ==> Peeked(d.mail.db, peer) == Peeked(c.mail.db, peer))
  {
    hide FlushedIfReady, Peeked, SessionOf;
    if order != [] {
      var front, last := order[..|order| - 1], order[|order| - 1];
      assert order == front + [last];
      LostConnectionsFlush(p, c, front, peer);
      FlushOthers(p, FlushedAll(p, c, front), peer, last);
    }
  }

  /** When the last connection goes, every peer ever met that has a key has its outbox sent by relay. */
  lemma LastConnectionFlushes(p: Platform, c: Core, conn: nat, peer: QString)
    requires c.mail.db.ready && Disconnected(c.net, conn).connections == []
    ensures var d := ConnectionLost(p, c, conn);
            peer in c.peers.relay ==>
              InRelay(AllRelayed(c, conn), peer) && (SessionOf(c, peer).ready ==> Peeked(d.mail.db, peer) == [])
  {
    hide Peeked, FlushedAll, Disconnected;
    LostConnectionsFlush(p, AllRelayed(c, conn), c.peers.order, peer);
    assert peer in c.peers.relay ==> peer in c.peers.order;
  }

  /** The connection is gone and every peer in relay mode; then the outboxes are flushed. */
  function AllRelayed(c: Core, conn: nat): Core {
    c.(net := Disconnected(c.net, conn), peers := AllRelay(c.peers))
  }

  // ── acknowledgements ───────────────────────────────────────────────────────

  /**
   * The waiting ids are the last ones handed over. While no message's STORE was lost they are a suffix of those
   * of the unanswered STOREs. If every STORE carried an id, they are all of those, and before them as many
   * as were lost.
   */
  lemma AckCorrelation(p: Platform, c: Core, now: Msecs)
    requires Reachable(p, c, now)
    ensures var tags, n, k := StoreTags(c.mail.out), c.mail.trace.answered, |c.mail.trace.missed|;
            && n <= |tags| && Suffix(c.mail.relayIds, Ids(tags))
            && |c.mail.relayIds| <= |Ids(tags[n..])| + k
            && (k == 0 ==> Suffix(c.mail.relayIds, Ids(tags[n..])))
            && (AllOwned(tags) ==> k <= n <= |Ids(tags)| && c.mail.relayIds == Ids(tags)[n - k..])
            && (AllOwned(tags) && k == 0 ==> c.mail.relayIds == Ids(tags[n..]))
  {
    hide StoreTags, Ids, MailInv, Reachable, Correlated, Suffix, AllOwned;
    ReachableMail(p, c, now);
    MailCorrelated(c.mail, now);
    CorrelationGives(c.mail.relayIds, StoreTags(c.mail.out), c.mail.trace.answered, |c.mail.trace.missed|);
  }

  lemma MailCorrelated(m: Mail, now: Msecs)
    requires MailInv(m, now)
    ensures Correlated(m.relayIds, StoreTags(m.out), m.trace.answered, |m.trace.missed|)
  {
    hide StoreTags, Ids, Watermark, Numbered, Conserved, Accounted, Correlated;
  }

  lemma CorrelationGives(relayIds: seq<int>, tags: seq<Option<int>>, n: nat, k: nat)
    requires Correlated(relayIds, tags, n, k)
    ensures n <= |tags| && Suffix(relayIds, Ids(tags)) && |relayIds| <= |Ids(tags[n..])| + k
    ensures k == 0 ==> Suffix(relayIds, Ids(tags[n..]))
    ensures AllOwned(tags) ==> k <= n <= |Ids(tags)| && relayIds == Ids(tags)[n - k..]
    ensures AllOwned(tags) && k == 0 ==> relayIds == Ids(tags[n..])
  {
    hide Ids;
    IdsSplit(tags, n);
    SuffixOfSuffix(relayIds, Ids(tags[n..]), Ids(tags));
    if AllOwned(tags) {
      IdsOfOwned(tags);
      IdsOfOwned(tags[n..]);
    }
  }

  lemma SuffixOfSuffix(a: seq<int>, b: seq<int>, whole: seq<int>)
    requires Suffix(a, whole) && |b| <= |whole| && whole[|whole| - |b|..] == b
    ensures |a| <= |b| ==> Suffix(a, b)
    ensures a == whole[|whole| - |a|..]
  {
  }

  lemma {:induction false} IdsOfOwned(tags: seq<Option<int>>)
    requires AllOwned(tags)
    ensures |Ids(tags)| == |tags| && forall i :: 0 <= i < |tags| ==> tags[i] == Some(Ids(tags)[i])
  {
    if tags != [] {
      var front := tags[..|tags| - 1];
      assert AllOwned(front) by { assert forall i :: 0 <= i < |front| ==> front[i] == tags[i]; }
      IdsOfOwned(front);
      assert tags[|tags| - 1].Some?;
    }
  }

  /**
   * When every STORE came from `send_message`, a reply settles the message whose STORE is as many places before
   * the one it answers as STOREs were lost, so its own exactly if none was: that row gets the reply's
   * status, and no other row changes.
   */
  lemma AckReachesOwnMessage(p: Platform, c: Core, ok: bool, now: Msecs)
    requires Reachable(p, c, now) && AllOwned(StoreTags(c.mail.out)) && c.mail.trace.answered < |StoreTags(c.mail.out)|
    ensures |c.mail.trace.missed| <= c.mail.trace.answered
    ensures var settled := StoreTags(c.mail.out)[c.mail.trace.answered - |c.mail.trace.missed|];
            var before, after := c.mail.db.messages, React(p, c, StoreReply(ok), now).mail.db.messages;
            && c.mail.relayIds != [] && settled == Some(c.mail.relayIds[0]) && |after| == |before|
            && (settled == StoreTags(c.mail.out)[c.mail.trace.answered] <==> c.mail.trace.missed == [])
            && forall i :: 0 <= i < |before| ==> after[i] == (if before[i].id == settled.value
                 then before[i].(status := Verdict(ok)) else before[i])
  {
    var tags := StoreTags(c.mail.out);
    hide StoreTags, Ids, MailInv, Reachable;
    AckCorrelation(p, c, now);
    ReachableMail(p, c, now);
    AckBasics(c.mail, now);
    IdsOfOwned(tags);
    TagsDiffer(c.mail, now);
  }

  lemma TagsDiffer(m: Mail, now: Msecs)
    requires MailInv(m, now)
    ensures forall i, j :: 0 <= i < j < |Ids(StoreTags(m.out))| ==> Ids(StoreTags(m.out))[i] < Ids(StoreTags(m.out))[j]
  {
    hide StoreTags, Ids, Watermark, Numbered, Conserved, Accounted, Correlated;
  }

  lemma AckBasics(m: Mail, now: Msecs)
    requires MailInv(m, now)
    ensures m.db.ready && forall i :: 0 <= i < |m.relayIds| ==> m.relayIds[i] >= 0
  {
    hide StoreTags, Ids, Watermark, Numbered, Conserved, Accounted, Correlated;
  }

  /**
   * The reply to a STORE without an id settles some other message: that message's row gets the reply's status,
   * and no other row changes. Unless a STORE was lost before, that message's own STORE is still unanswered.
   */
  lemma UntaggedReplySettlesEarly(p: Platform, c: Core, ok: bool, now: Msecs)
    requires Reachable(p, c, now) && c.mail.relayIds != [] && c.mail.trace.answered < |StoreTags(c.mail.out)|
    requires StoreTags(c.mail.out)[c.mail.trace.answered] == None
    ensures var id := c.mail.relayIds[0];
            var before, after := c.mail.db.messages, React(p, c, StoreReply(ok), now).mail.db.messages;
            && id in Ids(StoreTags(c.mail.out)) && |after| == |before|
            && (c.mail.trace.missed == [] ==> id in Ids(StoreTags(c.mail.out)[c.mail.trace.answered + 1..]))
            && forall i :: 0 <= i < |before| ==>
                 after[i] == (if before[i].id == id then before[i].(status := Verdict(ok)) else before[i])
  {
    hide StoreTags, Ids, MailInv, Reachable;
    AckCorrelation(p, c, now);
    ReachableMail(p, c, now);
    AckBasics(c.mail, now);
    var tags, n := StoreTags(c.mail.out), c.mail.trace.answered;
    FirstUntagged(tags[n..]);
    assert tags[n..][1..] == tags[n + 1..];
  }

  // ── accounting ─────────────────────────────────────────────────────────────

  /** The message of a packet in the outbox waits for no reply, and its row is Pending or already Read. */
  lemma OutboxAccounting(p: Platform, c: Core, now: Msecs, row: OutRow)
    requires Reachable(p, c, now) && row in c.mail.db.outbox
    ensures row.id in c.mail.trace.owner
    ensures c.mail.trace.owner[row.id] !in c.mail.relayIds
    ensures PendingOrRead(c.mail.db.messages, c.mail.trace.owner[row.id])
  {
    hide Watermark, Numbered, Conserved, Correlated, StoreTags, Reachable;
    ReachableMail(p, c, now);
  }

  /**
   * A directly sent message is marked Sent at once and never queued, but its bytes reach a socket exactly when
   * some listed connection is already open, and a socket of the addressee exactly when one of those
   * was dialled to it or confirmed for it. Routing only asks whether any connection is listed.
   */
  lemma DirectSendReachesWire(p: Platform, a: Core, peer: QString, chat: Chat, now: Msecs)
    requires !Refused(a, peer, chat.text) && a.mail.db.ready && Numbered(a.mail.db) && RouteTo(a, peer) == Direct
    ensures var b := SendMessage(p, a, peer, chat, now);
            var blob := DirectBlob(p, a, peer, MessageBytes(chat.(sender := a.me.nick), now));
            && |b.mail.db.messages| == |a.mail.db.messages| + 1
            && b.mail.db.messages[|a.mail.db.messages|].status == MsgSent && b.mail.db.outbox == a.mail.db.outbox
            && (b.net.wire != a.net.wire <==> exists conn :: conn in a.net.connections && conn in a.net.connected)
            && |a.net.wire| <= |b.net.wire|
            && ((exists conn: nat :: Belongs(a.net, conn, peer) && (conn, blob) in b.net.wire[|a.net.wire|..])
                <==> (exists conn: nat ::
                        Belongs(a.net, conn, peer) && conn in a.net.connections && conn in a.net.connected))
  {
    hide DirectBlob, MessageBytes, Writes, NewRow, SendMessage, Numbered;
    var blob := DirectBlob(p, a, peer, MessageBytes(chat.(sender := a.me.nick), now));
    SendHandsOver(p, a, peer, chat, now);
    WritesSomewhere(a.net.connections, a.net.connected, blob);
    WrittenTo(a.net, peer, blob);
  }

  // ── reading ────────────────────────────────────────────────────────────────

  /** Read marks form a prefix of the rows sent to a peer, in id and time order; status Read is marked. */
  lemma ReadWatermark(p: Platform, c: Core, now: Msecs, i: nat, j: nat)
    requires Reachable(p, c, now) && i < j < |c.mail.db.messages|
    requires c.mail.db.messages[i].outgoing && To(c.mail.db.messages[j], c.mail.db.messages[i].peer)
    ensures var rows := c.mail.db.messages;
            && rows[i].id < rows[j].id && rows[i].timestamp <= rows[j].timestamp
            && (rows[j].isRead ==> rows[i].isRead)
            && (rows[i].status == MsgRead ==> rows[i].isRead) && (rows[j].status == MsgRead ==> rows[j].isRead)
  {
    hide Secs, Conserved, Correlated, StoreTags, Accounted, Reachable;
    ReachableMail(p, c, now);
  }

  /** As a run continues, rows keep their ids and contents, and a read mark is never cleared. */
  lemma ReadMarksStay(p: Platform, c: Core, now: Msecs, events: seq<Timed>, i: nat)
    requires Reachable(p, c, now) && InTime(events, now) && i < |c.mail.db.messages|
    ensures var later := Run(p, c, events).mail.db.messages;
            && i < |later| && (c.mail.db.messages[i].isRead ==> later[i].isRead)
            && later[i] == c.mail.db.messages[i].(status := later[i].status, isRead := later[i].isRead)
  {
    hide Run, Invariant, InTime, AnyLost, DiscardsSomewhere, Reachable;
    ReachableInvariant(p, c, now);
    RunKeeps(p, c, events, now);
    RowKept(c.mail.db.messages, Run(p, c, events).mail.db.messages, i);
  }

  // ── verification and buffering ─────────────────────────────────────────────

  /** Both components await the same peers with the same keys, and every authenticated connection was vouched for. */
  lemma VerificationLockstep(p: Platform, c: Core, now: Msecs)
    requires Reachable(p, c, now)
    ensures c.verify.pending == c.net.claimed && c.verify.pending.Keys == c.net.pending.Keys
    ensures forall conn :: conn in c.net.authenticated ==>
      exists claim :: claim in c.net.claims && claim.conn == conn && (claim.nick, claim.key) in c.verify.lookups
  {
    hide MailInv, InboxInv, Reachable;
    ReachableInvariant(p, c, now);
    forall conn | conn in c.net.authenticated
      ensures exists claim :: claim in c.net.claims && claim.conn == conn && (claim.nick, claim.key) in c.verify.lookups
    {
      assert Vouched(c, conn);
    }
  }

  /** Every non-empty blob received has exactly one fate, and the buffered ones are in arrival order. */
  lemma EveryBlobHasOneFate(p: Platform, c: Core, now: Msecs, n: nat)
    requires Reachable(p, c, now) && n < |c.inbox.arrived|
    ensures n in c.inbox.consumed || n in c.inbox.dropped || Held(c.inbox.arrived[n], n) in c.inbox.buffer
    ensures !(n in c.inbox.consumed && n in c.inbox.dropped)
    ensures n in c.inbox.consumed || n in c.inbox.dropped ==> forall h :: h in c.inbox.buffer ==> h.arrival != n
    ensures InOrder(c.inbox.buffer)
  {
    hide Reachable, MailInv, InboxInv, Lockstep, InOrder;
    ReachableInvariant(p, c, now);
    OneFate(c.inbox, n);
  }

  lemma OneFate(b: Inbox, n: nat)
    requires InboxInv(b) && n < |b.arrived|
    ensures n in b.consumed || n in b.dropped || Held(b.arrived[n], n) in b.buffer
    ensures !(n in b.consumed && n in b.dropped) && InOrder(b.buffer)
    ensures n in b.consumed || n in b.dropped ==> forall h :: h in b.buffer ==> h.arrival != n
  {
    hide InOrder;
    if n !in b.consumed && n !in b.dropped {
      assert n in b.consumed + b.dropped + Arrivals(b.buffer);
      var h :| h in b.buffer && h.arrival == n;
      assert h == Held(b.arrived[n], n);
    }
    forall h | h in b.buffer ensures h.arrival in Arrivals(b.buffer) {
    }
  }
}
