/** Blobs that arrive before their sender's key: what a retry pass does, and what it never can. */
module Buffering {
  import opened Bytes
  import opened Platform
  import opened DataStream
  import opened Crypto
  import opened LocalDb
  import opened Network
  import opened Core
  import opened MailMoves
  import opened CoreInvariants

  // ── a deferred delivery is the delivery ────────────────────────────────────

  lemma TransmitIgnoresInbox(p: Platform, c: Core, box: Inbox, peer: QString, plain: bytes, origin: Origin)
    ensures Transmitted(p, c.(inbox := box), peer, plain, origin)
          == Transmitted(p, c, peer, plain, origin).(inbox := box)
  {
    hide Encrypt, RelayEnvelope, PeerEnvelope, RelaySet, DataSent;
    var d := c.(inbox := box);
    assert CryptoFor(d, peer) == CryptoFor(c, peer).(inbox := box);
    assert RouteTo(d, peer) == RouteTo(c, peer);
  }

  lemma HandlingIgnoresInbox(p: Platform, c: Core, box: Inbox, plain: bytes, hint: QString, now: Msecs)
    ensures PlainHandled(p, c.(inbox := box), plain, hint, now) == PlainHandled(p, c, plain, hint, now).(inbox := box)
  {
    hide Transmitted, Deserialize, DecodeChat, DecodeReceipt, Serialize, Saved, MarkedRead;
    match Deserialize(plain)
    case None =>
    case Some(packet) =>
      if packet.kind == CHAT_MESSAGE {
        var chat := DecodeChat(packet.data, hint);
        var c1 := ChatReceived(c, chat, packet.timestamp);
        TransmitIgnoresInbox(p, c1, box, chat.sender,
          Serialize(Packet(READ_RECEIPT, now, EncodeReceipt(Receipt(c.me.nick, Secs(packet.timestamp))))), Unowned);
      }
  }

  /** Once its key is there, a buffered blob is handled just as if it arrived now; only the buffer differs. */
  lemma DeferredDelivery(p: Platform, c: Core, h: Held, now: Msecs, box: Inbox)
    requires Read(p, c, h.data).Plain? && h.data != []
    ensures Retried(p, c, h, now).(inbox := box) == DataReceived(p, c, h.data, now).(inbox := box)
  {
    hide PlainHandled, Decrypt, SessionOf;
    var r, c1 := Read(p, c, h.data), SenderMet(p, c, h.data);
    HandlingIgnoresInbox(p, c1, c.inbox.(consumed := c.inbox.consumed + {h.arrival}), r.plain, r.sender, now);
    HandlingIgnoresInbox(p, c1,
                         c.inbox.(arrived := c.inbox.arrived + [h.data],
                                  consumed := c.inbox.consumed + {|c.inbox.arrived|}),
                         r.plain, r.sender, now);
  }

  // ── a second pass does nothing ─────────────────────────────────────────────

  /** The sender of a blob, if it names one, has an entry. */
  predicate Met(p: Platform, c: Core, data: bytes) {
    SenderOf(p, data).Some? ==> SenderOf(p, data).value in c.sessions
  }

  lemma HandlingMeets(p: Platform, c: Core, plain: bytes, hint: QString, now: Msecs)
    ensures c.sessions.Keys <= PlainHandled(p, c, plain, hint, now).sessions.Keys
  {
    hide Deserialize, DecodeChat, DecodeReceipt, Serialize, Saved, MarkedRead, Encrypt, RelayEnvelope, PeerEnvelope,
      RelaySet, DataSent;
  }

  lemma RetryMeets(p: Platform, c: Core, h: Held, now: Msecs)
    ensures c.sessions.Keys <= Retried(p, c, h, now).sessions.Keys && Met(p, Retried(p, c, h, now), h.data)
  {
    hide PlainHandled, SenderOf, Decrypt;
    var c1 := SenderMet(p, c, h.data);
    match Read(p, c, h.data)
    case Plain(sender, plain) =>
      HandlingMeets(p, c1.(inbox := c.inbox.(consumed := c.inbox.consumed + {h.arrival})), plain, sender, now);
    case _ =>
  }

  lemma {:induction false} PassMeets(p: Platform, c: Core, todo: seq<Held>, now: Msecs)
    ensures var d := RetryPass(p, c, todo, now).core;
            c.sessions.Keys <= d.sessions.Keys && forall h :: h in todo ==> Met(p, d, h.data)
  {
    hide Retried, Read, SenderOf;
    if todo != [] {
      var front, last := todo[..|todo| - 1], todo[|todo| - 1];
      PassMeets(p, c, front, now);
      RetryMeets(p, RetryPass(p, c, front, now).core, last, now);
      assert forall h :: h in todo ==> h in front || h == last;
    }
  }

  lemma {:induction false} SettledPass(p: Platform, c: Core, todo: seq<Held>, now: Msecs)
    requires forall h :: h in todo ==> !Read(p, c, h.data).Plain? && Met(p, c, h.data)
    ensures RetryPass(p, c, todo, now) == Pass(c, todo)
  {
    hide Read, SenderOf;
    if todo != [] {
      SettledPass(p, c, todo[..|todo| - 1], now);
      assert todo == todo[..|todo| - 1] + [todo[|todo| - 1]];
    }
  }

  lemma {:induction false} KeptUnreadable(p: Platform, c: Core, todo: seq<Held>)
    ensures forall h :: h in KeptOf(p, c, todo) <==> h in todo && !Read(p, c, h.data).Plain?
  {
    hide Read;
    if todo != [] {
      KeptUnreadable(p, c, todo[..|todo| - 1]);
      assert todo == todo[..|todo| - 1] + [todo[|todo| - 1]];
    }
  }

  /** With unchanged keys a second pass is a no-op, on the whole state. */
  lemma RetryIdempotent(p: Platform, c: Core, now: Msecs, again: Msecs)
    ensures PendingTried(p, PendingTried(p, c, now), again) == PendingTried(p, c, now)
  {
    hide RetryPass, KeptOf, Read;
    var todo, d := c.inbox.buffer, PendingTried(p, c, now);
    AnythingIsClosed();
    PassPartitions(Anything(), p, c, todo, now);
    PassMeets(p, c, todo, now);
    KeptUnreadable(p, c, todo);
    forall h | h in d.inbox.buffer ensures !Read(p, d, h.data).Plain? && Met(p, d, h.data) {
      SameReading(p, c, d, h.data);
    }
    SettledPass(p, d, d.inbox.buffer, again);
  }

  // ── what no run can deliver ────────────────────────────────────────────────

  /** Every buffered blob that names no sender, by a '|' after its first byte, is still buffered. */
  ghost predicate KeepsBare(p: Platform, a: Inbox, b: Inbox) {
    forall h :: h in a.buffer && SenderOf(p, h.data).None? ==> h in b.buffer
  }

  lemma PendingKeepsBare(p: Platform, c: Core, now: Msecs)
    ensures KeepsBare(p, c.inbox, PendingTried(p, c, now).inbox)
  {
    hide RetryPass, KeptOf;
    AnythingIsClosed();
    PassPartitions(Anything(), p, c, c.inbox.buffer, now);
    KeptUnreadable(p, c, c.inbox.buffer);
    assert forall h :: h in c.inbox.buffer && SenderOf(p, h.data).None? ==> !Read(p, c, h.data).Plain?;
    hide Read, SenderOf;
  }

  lemma ReceiveKeepsBare(p: Platform, c: Core, data: bytes, now: Msecs)
    ensures KeepsBare(p, c.inbox, DataReceived(p, c, data, now).inbox)
  {
    hide PlainHandled, Read, SenderOf;
    AnythingIsClosed();
    if data != [] && Read(p, c, data).Plain? {
      var r, box := Read(p, c, data), c.inbox.(arrived := c.inbox.arrived + [data]);
      var c2 := SenderMet(p, c, data).(inbox := box.(consumed := box.consumed + {|c.inbox.arrived|}));
      HandleQuietly(Anything(), p, c2, r.plain, r.sender, now);
    }
  }

  lemma RelayKeepsBare(p: Platform, c: Core, blob: bytes, now: Msecs)
    ensures KeepsBare(p, c.inbox, RelayReceived(p, c, blob, now).inbox)
  {
    hide DataReceived, PlainHandled, ParseRelay, Decrypt, WithSecret, RelaySet;
    AnythingIsClosed();
    match ParseRelay(p, blob)
    case None => ReceiveKeepsBare(p, c, blob, now);
    case Some(r) =>
      var c1 := KeyedIfNeeded(p, CryptoFor(c, r.sender), r.sender, r.key);
      HandleQuietly(Anything(), p, RelayEntered(c1, r.sender), Decrypt(p, SessionOf(c1, r.sender), r.encrypted),
                    r.sender, now);
  }

  lemma {:induction false} FetchKeepsBare(p: Platform, c: Core, blobs: seq<bytes>, now: Msecs)
    ensures KeepsBare(p, c.inbox, Fetched(p, c, blobs, now).inbox)
  {
    hide RelayReceived;
    if blobs != [] {
      var front := blobs[..|blobs| - 1];
      FetchKeepsBare(p, c, front, now);
      RelayKeepsBare(p, Fetched(p, c, front, now), blobs[|blobs| - 1], now);
    }
  }

  lemma AuthenticatedKeepsBare(p: Platform, c: Core, nick: QString, key: bytes, now: Msecs)
    ensures KeepsBare(p, c.inbox, Authenticated(p, c, nick, key, now).inbox)
  {
    hide PendingTried, PeerFlushed, WithSecret, RelaySet;
    AnythingIsClosed();
    var c1 := Keyed(p, c, nick, key);
    var c2 := c1.(peers := RelaySet(c1.peers, nick, false));
    PendingKeepsBare(p, c2, now);
    PeerFlushMoves(Anything(), p, PendingTried(p, c2, now), nick, now);
  }

  lemma ContactKeepsBare(p: Platform, c: Core, nick: QString, key: bytes, now: Msecs)
    ensures KeepsBare(p, c.inbox, ContactFound(p, c, nick, key, now).inbox)
  {
    hide PendingTried, RelayFlushed, HostDialled, WithSecret, RelaySet, SessionOf;
    AnythingIsClosed();
    var unkeyed := !SessionOf(c, nick).ready;
    var c1 := if unkeyed then Keyed(p, c, nick, key) else c;
    PendingKeepsBare(p, c1, now);
    var c2 := if unkeyed then PendingTried(p, c1, now) else c1;
    var c3 := c2.(peers := Touched(c2.peers, nick));
    RelayFlushGoes(Anything(), p, c3, nick, now);
    DialGoes(Anything(), p, c3, nick, now);
  }

  lemma StepKeepsBare(p: Platform, c: Core, e: Timed)
    ensures KeepsBare(p, c.inbox, Step(p, c, e).inbox)
  {
    hide Authenticated, ContactFound, Fetched, HostDialled, DataReceived, ConnectionLost, RetriedAll, P2pFailed,
      MessageSent, Acked, StoreTags, KeepsBare, ParseHandshake, RejectedPeer, ConfirmedPeer, RemoveAll;
    AnythingIsClosed();
    var now := e.now;
    assert KeepsBare(p, c.inbox, c.inbox) by { KeepsBareSelf(p, c.inbox); }
    if Enabled(c, e.event) {
      match e.event
      case Send(peer, chat) => SendMoves(Anything(), p, c, peer, chat.(sender := c.me.nick), now);
      case LookupReply(nick, key) =>
        var c1 := LookupNoted(c, nick, key);
        if nick in c.verify.pending {
          var c2 := c1.(verify := c1.verify.(pending := c1.verify.pending - {nick}), net := ConfirmedPeer(c.net, nick));
          AuthenticatedKeepsBare(p, c2, nick, key, now);
        } else {
          ContactKeepsBare(p, c1, nick, key, now);
        }
      case FetchReply(blobs) => FetchKeepsBare(p, c, blobs, now);
      case DialPeer(peer) => DialGoes(Anything(), p, c, peer, now);
      case Data(conn, data) => ReceiveKeepsBare(p, c, data, now);
      case Expired(conn) =>
        P2pFailedGoes(Anything(), p, c.(net := DialExpired(c.net, conn)), c.net.attempts[conn], now);
      case Closed(conn) => LostMoves(Anything(), p, c, conn, now);
      case RetryTimer => RetryAllMoves(Anything(), c, c.peers.order, now);
      case _ =>
    }
  }

  lemma KeepsBareSelf(p: Platform, a: Inbox)
    ensures KeepsBare(p, a, a)
  {
  }

  /** Over every run, a buffered blob that names no sender is never delivered: it is buffered for good. */
  lemma {:induction false} BareBlobIsStuck(p: Platform, c: Core, events: seq<Timed>)
    ensures KeepsBare(p, c.inbox, Run(p, c, events).inbox)
  {
    hide Step;
    if events != [] {
      var front := events[..|events| - 1];
      BareBlobIsStuck(p, c, front);
      StepKeepsBare(p, Run(p, c, front), events[|events| - 1]);
    }
  }

  // ── packets flushed without an envelope ────────────────────────────────────

  /** The data broadcast for the `i`-th packet that waits for a peer. */
  function BareData(p: Platform, a: Core, peer: QString, i: nat): bytes
    requires i < |Peeked(a.mail.db, peer)|
  {
    Encrypt(p, SessionOf(a, peer), Peeked(a.mail.db, peer)[i], a.me.nonces(a.drawn + i))
  }

  /**
   * The flush to an authenticated peer broadcasts every waiting packet, in order, as a ciphertext without
   * an envelope, and records it as handed over.
   */
  lemma FlushIsBare(p: Platform, a: Core, peer: QString, i: nat)
    requires i < |Peeked(a.mail.db, peer)|
    ensures var a1, n, packets := PeerFlushed(p, a, peer), |a.mail.out|, Peeked(a.mail.db, peer);
            && |a1.mail.out| == n + |packets| && Peeked(a1.mail.db, peer) == []
            && a1.mail.db.messages == a.mail.db.messages
            && a1.mail.out[n + i] == ToPeers(BareData(p, a, peer, i), FromOutbox(peer, packets[i]))
            && |a1.mail.trace.drained| == |a.mail.trace.drained| + |packets|
            && a1.mail.trace.drained[|a.mail.trace.drained| + i] == Drain(peer, packets[i], false)
  {
    hide Encrypt, Blobs, Broadcast;
    WithoutBlobs(a.mail.db.outbox, peer, peer);
    hide Without;
  }

  /** Where the first '|' stands, and whose session the bytes before it name, decides what `b` can do with a blob. */
  predicate Unnamed(p: Platform, b: Core, data: bytes) {
    var sep := IndexOf(data, BAR, 0);
    sep <= 0 || !SessionOf(b, p.fromUtf8(data[..sep])).ready
  }

  /**
   * The fate of each flushed packet at any receiver: it is buffered exactly if its ciphertext has no '|'
   * after its first byte or the bytes before the first one name no ready session; otherwise the rest is
   * tried under that session, and dropped or handled.
   */
  lemma FlushedFate(p: Platform, a: Core, peer: QString, i: nat, b: Core, now: Msecs)
    requires i < |Peeked(a.mail.db, peer)| && SessionOf(a, peer).ready && Nonce(a.me.nonces(a.drawn + i))
    ensures var e := PeerFlushed(p, a, peer).mail.out[|a.mail.out| + i];
            && e.ToPeers?
            && var data, n := e.data, |b.inbox.arrived|;
            var c := DataReceived(p, b, data, now);
            && (Unnamed(p, b, data) <==> c.inbox == b.inbox.(arrived := b.inbox.arrived + [data],
                                                             buffer := b.inbox.buffer + [Held(data, n)]))
            && (Unnamed(p, b, data) ==> c.mail == b.mail && c.net == b.net)
            && (!Unnamed(p, b, data) ==>
                  var sep := IndexOf(data, BAR, 0);
                  var s := SessionOf(b, p.fromUtf8(data[..sep]));
                  c.inbox == if Decrypt(p, s, data[sep + 1..]) == []
                             then b.inbox.(arrived := b.inbox.arrived + [data], dropped := b.inbox.dropped + {n})
                             else b.inbox.(arrived := b.inbox.arrived + [data], consumed := b.inbox.consumed + {n}))
  {
    hide PeerFlushed, Decrypt, Encrypt, IndexOf, PlainHandled, SessionOf, Peeked;
    FlushIsBare(p, a, peer, i);
    var data := BareData(p, a, peer, i);
    assert data != [] by { BareIsNonEmpty(p, a, peer, i); }
    InboxLonger(b.inbox, data);
    if Read(p, b, data).Plain? {
      AnythingIsClosed();
      var r, box := Read(p, b, data), b.inbox.(arrived := b.inbox.arrived + [data]);
      var b2 := SenderMet(p, b, data).(inbox := box.(consumed := box.consumed + {|b.inbox.arrived|}));
      HandleQuietly(Anything(), p, b2, r.plain, r.sender, now);
    }
  }

  predicate Nonce(n: bytes) {
    |n| == NONCE_BYTES
  }

  lemma BareIsNonEmpty(p: Platform, a: Core, peer: QString, i: nat)
    requires i < |Peeked(a.mail.db, peer)| && SessionOf(a, peer).ready && Nonce(a.me.nonces(a.drawn + i))
    ensures BareData(p, a, peer, i) != []
  {
    hide Peeked, SessionOf;
  }

  lemma InboxLonger(b: Inbox, data: bytes)
    ensures |b.buffer + [Held(data, |b.arrived|)]| > |b.buffer|
  {
  }

  /**
   * So a queued message can be recorded as handed over and never reach a handler: if its ciphertext has no
   * '|' after its first byte, the receiver holds it for good, over every run.
   */
  lemma FlushedNeverDelivered(p: Platform, a: Core, peer: QString, i: nat, b: Core, now: Msecs, events: seq<Timed>)
    requires i < |Peeked(a.mail.db, peer)| && SessionOf(a, peer).ready && Nonce(a.me.nonces(a.drawn + i))
    requires IndexOf(BareData(p, a, peer, i), BAR, 0) <= 0
    ensures var a1, packet := PeerFlushed(p, a, peer), Peeked(a.mail.db, peer)[i];
            var data := BareData(p, a, peer, i);
            && a1.mail.out[|a.mail.out| + i] == ToPeers(data, FromOutbox(peer, packet))
            && Peeked(a1.mail.db, peer) == []
            && Held(data, |b.inbox.arrived|) in Run(p, DataReceived(p, b, data, now), events).inbox.buffer
  {
    hide PeerFlushed, DataReceived, Run, Peeked, IndexOf, SessionOf, Encrypt, Decrypt;
    FlushIsBare(p, a, peer, i);
    FlushedFate(p, a, peer, i, b, now);
    var data := BareData(p, a, peer, i);
    var c := DataReceived(p, b, data, now);
    LastHeld(b.inbox.buffer, Held(data, |b.inbox.arrived|));
    BareBlobIsStuck(p, c, events);
  }

  lemma LastHeld(buffer: seq<Held>, h: Held)
    ensures h in buffer + [h]
  {
  }
}
