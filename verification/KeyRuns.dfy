/**
 * Key agreement over whole runs of the core: every session holds the keys of its own pair of identities,
 * and none is lost, exactly as long as no event keys a session with another nickname's key.
 */
module KeyRuns {
  import opened Bytes
  import opened Platform
  import opened DataStream
  import opened Crypto
  import opened LocalDb
  import opened Network
  import opened Core
  import opened MailMoves
  import opened CoreInvariants

  /** Whose public key is whose. */
  type Directory = QString -> bytes

  /** The session was agreed between these two identities, or does not exist yet. */
  predicate AgreedOrNone(p: Platform, c: Core, peer: QString, peerKey: bytes) {
    var s := SessionOf(c, peer);
    s.ready ==> Exchange(p, c.me.pub, c.me.sec, peerKey) == Some(SessionKeys(s.rx, s.tx))
  }

  ghost predicate KeysAgree(p: Platform, keys: Directory, c: Core) {
    forall peer: QString :: AgreedOrNone(p, c, peer, keys(peer))
  }

  /** From `c` to `d` every session stays agreed, and a ready one stays ready. */
  ghost predicate KeepsKeys(p: Platform, keys: Directory, c: Core, d: Core) {
    && d.me == c.me && KeysAgree(p, keys, d)
    && forall peer: QString :: SessionOf(c, peer).ready ==> SessionOf(d, peer).ready
  }

  lemma KeysChain(p: Platform, keys: Directory, c: Core, d: Core, e: Core)
    requires KeepsKeys(p, keys, c, d) && KeepsKeys(p, keys, d, e)
    ensures KeepsKeys(p, keys, c, e)
  {
    hide KeysAgree, SessionOf;
  }

  lemma KeepsAgree(p: Platform, keys: Directory, c: Core, d: Core)
    requires KeepsKeys(p, keys, c, d)
    ensures KeysAgree(p, keys, d)
  {
    hide KeysAgree;
  }

  /** A ready session keeps its very keys. */
  lemma SameKeys(p: Platform, keys: Directory, c: Core, d: Core, peer: QString)
    requires KeysAgree(p, keys, c) && KeepsKeys(p, keys, c, d) && SessionOf(c, peer).ready
    ensures SessionOf(d, peer).ready
    ensures SessionOf(d, peer).rx == SessionOf(c, peer).rx && SessionOf(d, peer).tx == SessionOf(c, peer).tx
  {
    hide SessionOf, Exchange;
    assert AgreedOrNone(p, c, peer, keys(peer)) && AgreedOrNone(p, d, peer, keys(peer));
  }

  lemma SessionsKeep(p: Platform, keys: Directory, c: Core, d: Core)
    requires KeysAgree(p, keys, c) && SameSessions(c, d) && d.me == c.me
    ensures KeepsKeys(p, keys, c, d)
  {
    hide SessionOf, Exchange;
    forall peer: QString ensures AgreedOrNone(p, d, peer, keys(peer)) {
      assert AgreedOrNone(p, c, peer, keys(peer));
    }
  }

  // ── the wrong key ──────────────────────────────────────────────────────────

  /** Agreeing on this key sets up or replaces a session of a nickname whose own key it is not. */
  predicate WrongKey(p: Platform, keys: Directory, c: Core, nick: QString, key: bytes) {
    key != keys(nick) && (Exchange(p, c.me.pub, c.me.sec, key).Some? || SessionOf(c, nick).ready)
  }

  /** A lookup's key is agreed on if it confirms a claim, or if the nickname has no session yet. */
  predicate LookupKeys(c: Core, nick: QString, key: bytes) {
    if nick in c.verify.pending then c.verify.pending[nick] == key && nick in c.net.pending
    else !SessionOf(c, nick).ready
  }

  /** A relayed blob's key is agreed on, unverified, if its sender has no session yet. */
  predicate MistakenBlob(p: Platform, keys: Directory, c: Core, blob: bytes) {
    var r := ParseRelay(p, blob);
    r.Some? && !SessionOf(c, r.value.sender).ready && WrongKey(p, keys, c, r.value.sender, r.value.key)
  }

  predicate MistakenFetch(p: Platform, keys: Directory, c: Core, blobs: seq<bytes>, now: Msecs) {
    blobs != [] &&
    var front := blobs[..|blobs| - 1];
    MistakenFetch(p, keys, c, front, now) || MistakenBlob(p, keys, Fetched(p, c, front, now), blobs[|blobs| - 1])
  }

  /** The event keys a session with a key that is not its nickname's. */
  predicate Mistaken(p: Platform, keys: Directory, c: Core, e: Event, now: Msecs) {
    match e
    case LookupReply(nick, key) => LookupKeys(c, nick, key) && WrongKey(p, keys, c, nick, key)
    case FetchReply(blobs) => MistakenFetch(p, keys, c, blobs, now)
    case _ => false
  }

  predicate MistakenSomewhere(p: Platform, keys: Directory, c: Core, events: seq<Timed>) {
    events != [] &&
    var before := Run(p, c, events[..|events| - 1]);
    var e := events[|events| - 1];
    || MistakenSomewhere(p, keys, c, events[..|events| - 1])
    || (Enabled(before, e.event) && Mistaken(p, keys, before, e.event, e.now))
  }

  /** Every step of a run keeps every session agreed and ready. */
  ghost predicate AlwaysKeepsKeys(p: Platform, keys: Directory, c: Core, events: seq<Timed>) {
    events != [] ==>
      AlwaysKeepsKeys(p, keys, c, events[..|events| - 1])
      && KeepsKeys(p, keys, Run(p, c, events[..|events| - 1]), Run(p, c, events))
  }

  /** Agreeing on a key keeps the sessions agreed exactly unless it is the wrong key. */
  lemma KeyedKeeps(p: Platform, keys: Directory, c: Core, nick: QString, key: bytes)
    requires KeysAgree(p, keys, c)
    ensures !WrongKey(p, keys, c, nick, key) ==> KeepsKeys(p, keys, c, Keyed(p, c, nick, key))
    ensures KxDistinct(p) && WrongKey(p, keys, c, nick, key) ==> !KeepsKeys(p, keys, c, Keyed(p, c, nick, key))
  {
    hide Exchange, KxDistinct;
    var d := Keyed(p, c, nick, key);
    assert AgreedOrNone(p, c, nick, keys(nick));
    if WrongKey(p, keys, c, nick, key) {
      if KxDistinct(p) && SessionOf(d, nick).ready {
        DistinctKeys(p, c.me.pub, c.me.sec, key, keys(nick));
        assert !AgreedOrNone(p, d, nick, keys(nick));
      }
    } else {
      forall peer: QString
        ensures AgreedOrNone(p, d, peer, keys(peer)) && (SessionOf(c, peer).ready ==> SessionOf(d, peer).ready)
      {
        assert AgreedOrNone(p, c, peer, keys(peer));
      }
    }
  }

  /** What leaves sessions alone afterwards does not change whether they were kept. */
  lemma KeptAfter(p: Platform, keys: Directory, c: Core, d: Core, e: Core)
    requires SameSessions(d, e) && e.me == d.me
    ensures KeepsKeys(p, keys, c, d) <==> KeepsKeys(p, keys, c, e)
  {
    hide SessionOf, Exchange;
    forall peer: QString
      ensures AgreedOrNone(p, d, peer, keys(peer)) <==> AgreedOrNone(p, e, peer, keys(peer))
    {
    }
  }

  /** What leaves sessions alone before does not either. */
  lemma KeptBefore(p: Platform, keys: Directory, c: Core, d: Core, e: Core)
    requires SameSessions(c, d) && d.me == c.me
    ensures KeepsKeys(p, keys, c, e) <==> KeepsKeys(p, keys, d, e)
    ensures KeysAgree(p, keys, c) <==> KeysAgree(p, keys, d)
  {
    hide SessionOf, Exchange;
    forall peer: QString
      ensures AgreedOrNone(p, c, peer, keys(peer)) <==> AgreedOrNone(p, d, peer, keys(peer))
    {
    }
  }

  // ── reactions that agree no keys ───────────────────────────────────────────

  lemma ReceiveSessions(p: Platform, c: Core, data: bytes, now: Msecs)
    ensures SameSessions(c, DataReceived(p, c, data, now)) && DataReceived(p, c, data, now).me == c.me
  {
    hide PlainHandled, Read, SenderOf;
    AnythingIsClosed();
    if data != [] && Read(p, c, data).Plain? {
      var r, box := Read(p, c, data), c.inbox.(arrived := c.inbox.arrived + [data]);
      var c2 := SenderMet(p, c, data).(inbox := box.(consumed := box.consumed + {|c.inbox.arrived|}));
      HandleQuietly(Anything(), p, c2, r.plain, r.sender, now);
    }
  }

  lemma {:induction false} FlushAllSessions(p: Platform, c: Core, order: seq<QString>)
    ensures SameSessions(c, FlushedAll(p, c, order)) && FlushedAll(p, c, order).me == c.me
  {
    hide RelayEntries, Drained, Peeked;
    if order != [] { FlushAllSessions(p, c, order[..|order| - 1]); }
  }

  lemma {:induction false} RetryAllSessions(c: Core, order: seq<QString>)
    ensures SameSessions(c, RetriedAll(c, order)) && RetriedAll(c, order).me == c.me
  {
    if order != [] { RetryAllSessions(c, order[..|order| - 1]); }
  }

  lemma PassSessions(p: Platform, c: Core, now: Msecs)
    ensures SameSessions(c, PendingTried(p, c, now)) && PendingTried(p, c, now).me == c.me
  {
    hide RetryPass;
    AnythingIsClosed();
    PassPartitions(Anything(), p, c, c.inbox.buffer, now);
  }

  // ── reactions that may ─────────────────────────────────────────────────────

  /** From `c` to `d` sessions are kept if the flag is down, and, with distinct keys, only then. */
  ghost predicate KeptUnless(p: Platform, keys: Directory, c: Core, d: Core, mistaken: bool) {
    (!mistaken ==> KeepsKeys(p, keys, c, d)) && (KxDistinct(p) && mistaken ==> !KeepsKeys(p, keys, c, d))
  }

  lemma AuthenticatedKeeps(p: Platform, keys: Directory, c: Core, nick: QString, key: bytes, now: Msecs)
    requires KeysAgree(p, keys, c)
    ensures KeptUnless(p, keys, c, Authenticated(p, c, nick, key, now), WrongKey(p, keys, c, nick, key))
  {
    hide Keyed, PendingTried, RelaySet, KeepsKeys, KeysAgree, PeerEntries, Drained, Broadcast, WrongKey, KxDistinct;
    var c1 := Keyed(p, c, nick, key);
    KeyedKeeps(p, keys, c, nick, key);
    var d := Authenticated(p, c, nick, key, now);
    var c2 := c1.(peers := RelaySet(c1.peers, nick, false));
    PassSessions(p, c2, now);
    assert SameSessions(c1, c2) by { SameMap(c1, c2); }
    assert d.sessions == c1.sessions || d.sessions == PendingTried(p, c2, now).sessions;
    SameMap(c1, d);
    SameMap(PendingTried(p, c2, now), d);
    KeptAfter(p, keys, c, c1, d);
  }

  lemma ContactKeeps(p: Platform, keys: Directory, c: Core, nick: QString, key: bytes, now: Msecs)
    requires KeysAgree(p, keys, c)
    ensures var mistaken := !SessionOf(c, nick).ready && WrongKey(p, keys, c, nick, key);
            KeptUnless(p, keys, c, ContactFound(p, c, nick, key, now), mistaken)
  {
    hide Keyed, PendingTried, RelaySet, KeepsKeys, KeysAgree, RelayEntries, Drained, Peeked, WrongKey, KxDistinct;
    var c1 := if SessionOf(c, nick).ready then c else Keyed(p, c, nick, key);
    KeyedKeeps(p, keys, c, nick, key);
    SessionsKeep(p, keys, c, c);
    PassSessions(p, c1, now);
    KeptAfter(p, keys, c, c1, ContactFound(p, c, nick, key, now));
  }

  lemma KeyingHolds(p: Platform, c: Core, nick: QString, key: bytes)
    ensures var d := KeyedIfNeeded(p, CryptoFor(c, nick), nick, key);
            && d.me == c.me
            && forall peer: QString :: SessionOf(c, peer).ready ==> SessionOf(d, peer) == SessionOf(c, peer)
  {
    hide WithSecret;
  }

  /** A relayed blob leaves every session that is ready exactly as it is. */
  lemma RelayHolds(p: Platform, c: Core, blob: bytes, now: Msecs)
    ensures var d := RelayReceived(p, c, blob, now);
            && d.me == c.me
            && forall peer: QString :: SessionOf(c, peer).ready ==> SessionOf(d, peer) == SessionOf(c, peer)
  {
    hide DataReceived, PlainHandled, ParseRelay, Decrypt, RelaySet, KeyedIfNeeded, SessionOf;
    AnythingIsClosed();
    match ParseRelay(p, blob)
    case None => ReceiveSessions(p, c, blob, now);
    case Some(r) =>
      var c1 := KeyedIfNeeded(p, CryptoFor(c, r.sender), r.sender, r.key);
      KeyingHolds(p, c, r.sender, r.key);
      EnteredSessions(c1, r.sender);
      HandleQuietly(Anything(), p, RelayEntered(c1, r.sender), Decrypt(p, SessionOf(c1, r.sender), r.encrypted),
                    r.sender, now);
  }

  lemma RelayKeeps(p: Platform, keys: Directory, c: Core, blob: bytes, now: Msecs)
    requires KeysAgree(p, keys, c)
    ensures KeptUnless(p, keys, c, RelayReceived(p, c, blob, now), MistakenBlob(p, keys, c, blob))
  {
    hide DataReceived, PlainHandled, ParseRelay, Decrypt, RelaySet, Keyed, KeepsKeys, KeysAgree, SessionOf, Exchange,
      KxDistinct;
    var d := RelayReceived(p, c, blob, now);
    match ParseRelay(p, blob)
    case None =>
      ReceiveSessions(p, c, blob, now);
      SessionsKeep(p, keys, c, d);
    case Some(r) =>
      var met := CryptoFor(c, r.sender);
      var c1 := KeyedIfNeeded(p, met, r.sender, r.key);
      MeetingSessions(c, r.sender);
      KeptBefore(p, keys, c, met, c1);
      KeyedKeeps(p, keys, met, r.sender, r.key);
      assert SameSessions(met, met) by { EnteredSessions(met, r.sender); }
      SessionsKeep(p, keys, met, met);
      AnythingIsClosed();
      HandleQuietly(Anything(), p, RelayEntered(c1, r.sender), Decrypt(p, SessionOf(c1, r.sender), r.encrypted),
                    r.sender, now);
      EnteredSessions(c1, r.sender);
      KeptAfter(p, keys, c, c1, d);
  }

  lemma MeetingSessions(c: Core, peer: QString)
    ensures SameSessions(c, CryptoFor(c, peer))
  {
  }

  lemma EnteredSessions(c: Core, peer: QString)
    ensures SameSessions(c, c) && SameSessions(c, RelayEntered(c, peer))
  {
  }

  /** A session under the wrong keys stays so while messages are fetched. */
  lemma WrongStays(p: Platform, keys: Directory, c: Core, blob: bytes, now: Msecs)
    requires !KeysAgree(p, keys, c)
    ensures !KeysAgree(p, keys, RelayReceived(p, c, blob, now))
  {
    hide RelayReceived, SessionOf, Exchange;
    RelayHolds(p, c, blob, now);
    var peer :| !AgreedOrNone(p, c, peer, keys(peer));
    assert !AgreedOrNone(p, RelayReceived(p, c, blob, now), peer, keys(peer));
  }

  lemma {:induction false} FetchHolds(p: Platform, c: Core, blobs: seq<bytes>, now: Msecs)
    ensures var d := Fetched(p, c, blobs, now);
            && d.me == c.me
            && forall peer: QString :: SessionOf(c, peer).ready ==> SessionOf(d, peer) == SessionOf(c, peer)
  {
    hide RelayReceived, SessionOf;
    if blobs != [] {
      FetchHolds(p, c, blobs[..|blobs| - 1], now);
      RelayHolds(p, Fetched(p, c, blobs[..|blobs| - 1], now), blobs[|blobs| - 1], now);
    }
  }

  lemma {:induction false} FetchAgrees(p: Platform, keys: Directory, c: Core, blobs: seq<bytes>, now: Msecs)
    requires KeysAgree(p, keys, c)
    ensures !MistakenFetch(p, keys, c, blobs, now) ==> KeysAgree(p, keys, Fetched(p, c, blobs, now))
    ensures KxDistinct(p) && MistakenFetch(p, keys, c, blobs, now) ==> !KeysAgree(p, keys, Fetched(p, c, blobs, now))
  {
    hide RelayReceived, KeysAgree, MistakenBlob, KxDistinct, SessionOf;
    if blobs != [] {
      var front, last := Fetched(p, c, blobs[..|blobs| - 1], now), blobs[|blobs| - 1];
      FetchAgrees(p, keys, c, blobs[..|blobs| - 1], now);
      if KeysAgree(p, keys, front) {
        RelayKeeps(p, keys, front, last, now);
        RelayHolds(p, front, last, now);
      } else {
        WrongStays(p, keys, front, last, now);
      }
    }
  }

  lemma FetchKeeps(p: Platform, keys: Directory, c: Core, blobs: seq<bytes>, now: Msecs)
    requires KeysAgree(p, keys, c)
    ensures KeptUnless(p, keys, c, Fetched(p, c, blobs, now), MistakenFetch(p, keys, c, blobs, now))
  {
    hide Fetched, KeysAgree, MistakenFetch, KxDistinct, SessionOf;
    FetchAgrees(p, keys, c, blobs, now);
    FetchHolds(p, c, blobs, now);
  }

  // ── steps and runs ─────────────────────────────────────────────────────────

  lemma LookupKeeps(p: Platform, keys: Directory, c: Core, nick: QString, key: bytes, now: Msecs)
    requires KeysAgree(p, keys, c)
    ensures var mistaken := LookupKeys(c, nick, key) && WrongKey(p, keys, c, nick, key);
            KeptUnless(p, keys, c, PeerFound(p, c, nick, key, now), mistaken)
  {
    hide Authenticated, ContactFound, KeepsKeys, KeysAgree, RejectedPeer, Exchange, KxDistinct;
    var d, c1 := PeerFound(p, c, nick, key, now), LookupNoted(c, nick, key);
    SessionsKeep(p, keys, c, c);
    if nick in c.verify.pending {
      var c2 := c1.(verify := c1.verify.(pending := c1.verify.pending - {nick}), net := ConfirmedPeer(c.net, nick));
      KeptBefore(p, keys, c, c2, d);
      AuthenticatedKeeps(p, keys, c2, nick, key, now);
      if d.sessions == c.sessions && d.me == c.me { SessionsKeep(p, keys, c, d); }
    } else {
      KeptBefore(p, keys, c, c1, d);
      ContactKeeps(p, keys, c1, nick, key, now);
    }
  }

  lemma SameMap(c: Core, d: Core)
    ensures d.sessions == c.sessions ==> SameSessions(c, d)
  {
  }

  lemma SendSessions(p: Platform, c: Core, peer: QString, chat: Chat, now: Msecs)
    ensures SameSessions(c, SendMessage(p, c, peer, chat, now)) && SendMessage(p, c, peer, chat, now).me == c.me
  {
    hide Recorded, RelaySet, Encrypt, RelayEnvelope, PeerEnvelope, Saved, MessageBytes, SavedId, DataSent;
  }

  lemma FailedSessions(p: Platform, c: Core, peer: QString)
    ensures SameSessions(c, P2pFailed(p, c, peer)) && P2pFailed(p, c, peer).me == c.me
  {
    hide Drained, RelayEntries, Peeked, RelaySet;
  }

  /** Only lookups and relayed messages agree keys. */
  lemma StepSessions(p: Platform, c: Core, e: Timed)
    requires !e.event.LookupReply? && !e.event.FetchReply?
    ensures SameSessions(c, Step(p, c, e)) && Step(p, c, e).me == c.me
  {
    hide DataReceived, FlushedAll, RetriedAll, Acked, StoreMissed, ParseHandshake, StoreTags, SendMessage, P2pFailed,
      SessionOf, RemoveAll, Asked;
    SameMap(c, Step(p, c, e));
    match e.event
    case Send(peer, chat) => SendSessions(p, c, peer, chat, e.now);
    case Data(_, data) => ReceiveSessions(p, c, data, e.now);
    case Closed(conn) =>
      var c1 := c.(net := Disconnected(c.net, conn));
      var c2 := c1.(peers := AllRelay(c1.peers));
      SameMap(c, c2);
      FlushAllSessions(p, c2, c1.peers.order);
    case RetryTimer => RetryAllSessions(c, c.peers.order);
    case DialPeer(peer) =>
      var c1 := c.(net := Dialled(c.net, peer));
      SameMap(c, c1);
      FailedSessions(p, c1, peer);
    case Expired(conn) =>
      if Enabled(c, e.event) {
        var c1 := c.(net := DialExpired(c.net, conn));
        SameMap(c, c1);
        FailedSessions(p, c1, c.net.attempts[conn]);
      }
    case _ =>
  }

  /** One event keeps every session agreed and ready exactly when it is not mistaken. */
  lemma ReactKeepsKeys(p: Platform, keys: Directory, c: Core, e: Event, now: Msecs)
    requires KeysAgree(p, keys, c) && Enabled(c, e)
    ensures KeptUnless(p, keys, c, React(p, c, e, now), Mistaken(p, keys, c, e, now))
  {
    hide PeerFound, Fetched, KeepsKeys, KeysAgree, SessionOf, KxDistinct, WrongKey, LookupKeys, MistakenFetch, Enabled;
    match e
    case LookupReply(nick, key) => LookupKeeps(p, keys, c, nick, key, now);
    case FetchReply(blobs) => FetchKeeps(p, keys, c, blobs, now);
    case _ =>
      StepSessions(p, c, Timed(e, now));
      hide React;
      SessionsKeep(p, keys, c, Step(p, c, Timed(e, now)));
  }

  lemma StepKeepsKeys(p: Platform, keys: Directory, c: Core, e: Timed)
    requires KeysAgree(p, keys, c)
    ensures KeptUnless(p, keys, c, Step(p, c, e), Enabled(c, e.event) && Mistaken(p, keys, c, e.event, e.now))
  {
    hide React, KeepsKeys, KeysAgree, KxDistinct, Enabled, Mistaken;
    if Enabled(c, e.event) {
      ReactKeepsKeys(p, keys, c, e.event, e.now);
    } else {
      SameMap(c, c);
      SessionsKeep(p, keys, c, c);
    }
  }

  /** Over every run without a mistaken event, sessions stay agreed with the directory's keys and ready ones ready. */
  lemma {:induction false} RunKeepsKeys(p: Platform, keys: Directory, c: Core, events: seq<Timed>)
    requires KeysAgree(p, keys, c) && !MistakenSomewhere(p, keys, c, events)
    ensures KeepsKeys(p, keys, c, Run(p, c, events)) && AlwaysKeepsKeys(p, keys, c, events)
  {
    hide Step, KeepsKeys, KeysAgree, Mistaken, Enabled, KxDistinct;
    if events == [] {
      SameMap(c, c);
      SessionsKeep(p, keys, c, c);
    } else {
      var before := Run(p, c, events[..|events| - 1]);
      RunKeepsKeys(p, keys, c, events[..|events| - 1]);
      KeepsAgree(p, keys, c, before);
      StepKeepsKeys(p, keys, before, events[|events| - 1]);
      KeysChain(p, keys, c, before, Run(p, c, events));
    }
  }

  /** A run keeps every session agreed and ready at every step if and only if no event of it is mistaken. */
  lemma {:induction false} RunKeepsKeysExactly(p: Platform, keys: Directory, c: Core, events: seq<Timed>)
    requires KxDistinct(p) && KeysAgree(p, keys, c)
    ensures AlwaysKeepsKeys(p, keys, c, events) <==> !MistakenSomewhere(p, keys, c, events)
  {
    hide Step, KeepsKeys, KeysAgree, Mistaken, Enabled, KxDistinct;
    if events != [] {
      var front := events[..|events| - 1];
      RunKeepsKeysExactly(p, keys, c, front);
      if !MistakenSomewhere(p, keys, c, front) {
        RunKeepsKeys(p, keys, c, front);
        KeepsAgree(p, keys, c, Run(p, c, front));
        StepKeepsKeys(p, keys, Run(p, c, front), events[|events| - 1]);
      }
    }
  }

  // ── an honest server ───────────────────────────────────────────────────────

  /** The server's next answer to a lookup is about the nickname asked about last. */
  predicate Attributed(c: Core) {
    c.verify.heard < |Asked(c)| && Asked(c)[c.verify.heard] == Asked(c)[|Asked(c)| - 1]
  }

  /** On the wire: lookups are answered in order, each with the key of the nickname at its place. */
  predicate TrueAnswer(keys: Directory, c: Core, key: bytes) {
    c.verify.heard < |Asked(c)| && key == keys(Asked(c)[c.verify.heard])
  }

  /** The relayed envelopes name their senders' own keys. */
  predicate TrueEnvelopes(p: Platform, keys: Directory, blobs: seq<bytes>) {
    forall i :: 0 <= i < |blobs| ==> var r := ParseRelay(p, blobs[i]); r.Some? ==> r.value.key == keys(r.value.sender)
  }

  predicate HonestEvent(p: Platform, keys: Directory, c: Core, e: Event) {
    match e
    case LookupReply(_, key) => TrueAnswer(keys, c, key)
    case FetchReply(blobs) => TrueEnvelopes(p, keys, blobs)
    case _ => true
  }

  /** With an honest server only an answer to an earlier lookup, about another key, can be mistaken. */
  lemma HonestMistakes(p: Platform, keys: Directory, c: Core, e: Event, now: Msecs)
    requires Enabled(c, e) && HonestEvent(p, keys, c, e)
    ensures Mistaken(p, keys, c, e, now) <==>
      e.LookupReply? && keys(Asked(c)[c.verify.heard]) != keys(e.nick) && LookupKeys(c, e.nick, e.key)
      && WrongKey(p, keys, c, e.nick, e.key)
    ensures Attributed(c) ==> !Mistaken(p, keys, c, e, now)
  {
    hide Asked, LookupKeys, ParseRelay, MistakenFetch, Exchange;
    if e.FetchReply? { TrueFetch(p, keys, c, e.blobs, now); }
  }

  lemma {:induction false} TrueFetch(p: Platform, keys: Directory, c: Core, blobs: seq<bytes>, now: Msecs)
    requires TrueEnvelopes(p, keys, blobs)
    ensures !MistakenFetch(p, keys, c, blobs, now)
  {
    hide ParseRelay, Fetched;
    if blobs != [] { TrueFetch(p, keys, c, blobs[..|blobs| - 1], now); }
  }

  /** Every event is honest, and no lookup is answered after another nickname was asked about. */
  predicate OrderlyRun(p: Platform, keys: Directory, c: Core, events: seq<Timed>) {
    events == [] ||
    var before := Run(p, c, events[..|events| - 1]);
    var e := events[|events| - 1].event;
    OrderlyRun(p, keys, c, events[..|events| - 1])
    && (Enabled(before, e) ==> HonestEvent(p, keys, before, e) && (e.LookupReply? ==> Attributed(before)))
  }

  /** With an honest server, runs whose lookups do not overlap make no mistake. */
  lemma {:induction false} OrderlyRunsAreRight(p: Platform, keys: Directory, c: Core, events: seq<Timed>)
    requires OrderlyRun(p, keys, c, events)
    ensures !MistakenSomewhere(p, keys, c, events)
  {
    hide Mistaken, Enabled, HonestEvent, Attributed;
    if events != [] {
      var front, e := events[..|events| - 1], events[|events| - 1];
      OrderlyRunsAreRight(p, keys, c, front);
      var before := Run(p, c, front);
      if Enabled(before, e.event) {
        HonestMistakes(p, keys, before, e.event, e.now);
        OnlyReplies(p, keys, before, e.event, e.now);
      }
    }
  }

  lemma OnlyReplies(p: Platform, keys: Directory, c: Core, e: Event, now: Msecs)
    ensures Mistaken(p, keys, c, e, now) ==> e.LookupReply? || e.FetchReply?
  {
  }

  lemma StartAgrees(p: Platform, keys: Directory, me: Me)
    ensures KeysAgree(p, keys, Start(me))
  {
  }
}
