/** Theorems over whole runs of the core, from login on, under a clock that does not run backwards. */
module CoreRuns {
  import opened Bytes
  import opened Platform
  import opened DataStream
  import opened Protocol
  import opened LocalDb
  import opened Network
  import opened Core
  import opened MailMoves
  import opened MailInvariants
  import opened CoreInvariants

  // ── verification in lockstep ───────────────────────────────────────────────

  /** The connection claimed this nickname and key, and a lookup reported exactly them. */
  ghost predicate Vouched(c: Core, conn: nat) {
    exists claim :: claim in c.net.claims && claim.conn == conn && (claim.nick, claim.key) in c.verify.lookups
  }

  /** Core and network manager await the same peers with the same keys; authentication is vouched for. */
  ghost predicate Lockstep(c: Core) {
    && c.verify.pending == c.net.claimed
    && c.net.claimed.Keys == c.net.pending.Keys
    && (forall nick :: nick in c.net.pending ==> Claim(c.net.pending[nick], nick, c.net.claimed[nick]) in c.net.claims)
    && (forall conn :: conn in c.net.authenticated ==> Vouched(c, conn))
  }

  lemma LockstepSame(c: Core, d: Core)
    requires Lockstep(c) && SameClaims(c.net, d.net) && d.verify == c.verify
    ensures Lockstep(d)
  {
    forall conn | conn in d.net.authenticated ensures Vouched(d, conn) {
      assert Vouched(c, conn);
    }
  }

  lemma ClaimLockstep(p: Platform, c: Core, conn: nat, h: Handshake)
    requires Lockstep(c)
    ensures Lockstep(c.(net := Claimed(c.net, conn, h),
                        verify := c.verify.(pending := c.verify.pending[h.nick := h.key])))
  {
    var d := c.(net := Claimed(c.net, conn, h), verify := c.verify.(pending := c.verify.pending[h.nick := h.key]));
    forall k | k in d.net.authenticated ensures Vouched(d, k) {
      assert Vouched(c, k);
    }
  }

  lemma LookupLockstep(c: Core, nick: QString, key: bytes)
    requires Lockstep(c)
    ensures Lockstep(LookupNoted(c, nick, key))
  {
    var d := LookupNoted(c, nick, key);
    forall k | k in d.net.authenticated ensures Vouched(d, k) {
      assert Vouched(c, k);
    }
  }

  lemma PassedLockstep(c: Core)
    requires Lockstep(c)
    ensures Lockstep(LookupPassed(c))
  {
    var d := LookupPassed(c);
    forall k | k in d.net.authenticated ensures Vouched(d, k) {
      assert Vouched(c, k);
    }
  }

  /** Settling a claim removes it on both sides, and authenticates only a key the lookup confirmed. */
  lemma SettleLockstep(c: Core, nick: QString, key: bytes)
    requires Lockstep(c) && nick in c.verify.pending && (nick, key) in c.verify.lookups
    ensures var c1 := c.(verify := c.verify.(pending := c.verify.pending - {nick}));
            && Lockstep(c1.(net := RejectedPeer(c.net, nick)))
            && (c.verify.pending[nick] == key ==> Lockstep(c1.(net := ConfirmedPeer(c.net, nick))))
  {
    hide RemoveAll;
    var c1 := c.(verify := c.verify.(pending := c.verify.pending - {nick}));
    var conn := c.net.pending[nick];
    var rejected, confirmed := c1.(net := RejectedPeer(c.net, nick)), c1.(net := ConfirmedPeer(c.net, nick));
    forall k | k in c.net.authenticated ensures Vouched(rejected, k) && Vouched(confirmed, k) {
      assert Vouched(c, k);
    }
    if c.verify.pending[nick] == key {
      assert Claim(conn, nick, key) in confirmed.net.claims;
      assert Vouched(confirmed, conn);
    }
  }

  // ── one step ───────────────────────────────────────────────────────────────

  /** A state the mail relation is about, with its blobs accounted for and both components in step. */
  ghost predicate Fit(R: Relation, c: Core, now: Msecs) {
    Sound(R, c, now) && Lockstep(c)
  }

  /** The events that delete packets from the outbox without sending them. */
  predicate Discarding(c: Core, e: Event) {
    match e
    case Expired(conn) => conn in c.net.attempts && Discards(c, c.net.attempts[conn])
    case DialPeer(peer) => c.net.skipP2p && Discards(c, peer)
    case _ => false
  }

  /** What one reaction establishes; `discards` tells whether packets were deleted unsent. */
  ghost predicate StepSound(R: Relation, c: Core, d: Core, now: Msecs, discards: bool) {
    R(c.mail, d.mail, now, discards) && InboxInv(d.inbox) && Lockstep(d) && d.me == c.me
  }

  lemma WentSound(R: Relation, c: Core, d: Core, now: Msecs, discards: bool)
    requires Lockstep(c) && InboxInv(d.inbox) && Goes(R, c, d, now, discards)
    ensures StepSound(R, c, d, now, discards)
  {
    hide InboxInv, Lockstep;
    LockstepSame(c, d);
  }

  /** A sound step after one that changed no mail. */
  lemma SoundAfter(R: Relation, c: Core, d: Core, e: Core, now: Msecs, discards: bool)
    requires d.mail == c.mail && d.me == c.me && StepSound(R, d, e, now, discards)
    ensures StepSound(R, c, e, now, discards)
  {
    hide InboxInv, Lockstep;
  }

  lemma LookupSound(R: Relation, p: Platform, c: Core, nick: QString, key: bytes, now: Msecs)
    requires MoveClosed(R) && Fit(R, c, now)
    ensures StepSound(R, c, PeerFound(p, c, nick, key, now), now, false)
  {
    hide MoveClosed, InboxInv, Lockstep, ContactFound, Authenticated, RejectedPeer;
    var c1 := LookupNoted(c, nick, key);
    LookupLockstep(c, nick, key);
    if nick in c.verify.pending {
      SettleLockstep(c1, nick, key);
      var c2 := c1.(verify := c1.verify.(pending := c1.verify.pending - {nick}));
      if c.verify.pending[nick] == key {
        var c3 := c2.(net := ConfirmedPeer(c.net, nick));
        AuthenticatedEvolves(R, p, c3, nick, key, now);
        WentSound(R, c3, Authenticated(p, c3, nick, key, now), now, false);
        SoundAfter(R, c, c3, Authenticated(p, c3, nick, key, now), now, false);
      }
    } else {
      ContactEvolves(R, p, c1, nick, key, now);
      WentSound(R, c1, ContactFound(p, c1, nick, key, now), now, false);
      SoundAfter(R, c, c1, ContactFound(p, c1, nick, key, now), now, false);
    }
  }

  lemma DataSound(R: Relation, p: Platform, c: Core, conn: nat, data: bytes, now: Msecs)
    requires MoveClosed(R) && Fit(R, c, now)
    ensures StepSound(R, c, DataOn(p, c, conn, data, now), now, false)
  {
    hide MoveClosed, InboxInv, Lockstep, DataReceived, ParseHandshake, RemoveAll;
    if conn in c.net.incoming && conn !in c.net.authenticated {
      match ParseHandshake(p, data)
      case None =>
        var d := c.(net := Removed(c.net, conn));
        LockstepSame(c, d);
      case Some(h) =>
        var d := c.(net := Claimed(c.net, conn, h), verify := c.verify.(pending := c.verify.pending[h.nick := h.key]));
        ClaimLockstep(p, c, conn, h);
        AskMoves(R, d, Find(h.nick), now);
        WentSound(R, d, ServerSent(d, Find(h.nick), Unowned), now, false);
        SoundAfter(R, c, d, ServerSent(d, Find(h.nick), Unowned), now, false);
    } else {
      ReceiveEvolves(R, p, c, data, now);
      WentSound(R, c, DataReceived(p, c, data, now), now, false);
    }
  }

  lemma NetSound(R: Relation, c: Core, net: Net, now: Msecs)
    requires MoveClosed(R) && Fit(R, c, now) && SameClaims(c.net, net)
    ensures StepSound(R, c, c.(net := net), now, false)
  {
    hide MoveClosed, InboxInv, Lockstep;
    LockstepSame(c, c.(net := net));
  }

  lemma AskSound(R: Relation, c: Core, net: Net, cmd: Command, now: Msecs)
    requires MoveClosed(R) && Fit(R, c, now) && SameClaims(c.net, net)
    ensures StepSound(R, c, ServerSent(c.(net := net), cmd, Unowned), now, false)
  {
    hide MoveClosed, InboxInv, Lockstep;
    var d := c.(net := net);
    LockstepSame(c, d);
    AskMoves(R, d, cmd, now);
    WentSound(R, d, ServerSent(d, cmd, Unowned), now, false);
    SoundAfter(R, c, d, ServerSent(d, cmd, Unowned), now, false);
  }

  lemma ExpirySound(R: Relation, p: Platform, c: Core, conn: nat, peer: QString, now: Msecs)
    requires MoveClosed(R) && Fit(R, c, now)
    ensures StepSound(R, c, P2pFailed(p, c.(net := DialExpired(c.net, conn)), peer), now, Discards(c, peer))
  {
    hide MoveClosed, InboxInv, Lockstep, P2pFailed, RemoveAll, Goes;
    var d := c.(net := DialExpired(c.net, conn));
    LockstepSame(c, d);
    P2pFailedGoes(R, p, d, peer, now);
    WentSound(R, d, P2pFailed(p, d, peer), now, Discards(d, peer));
    SoundAfter(R, c, d, P2pFailed(p, d, peer), now, Discards(d, peer));
  }

  /** The events that touch only connections, or ask the server something. */
  predicate Peripheral(e: Event) {
    e.FindPeer? || e.Accept? || e.Opened? || e.NetworkDown? || e.NetworkUp? || e.Poll? || e.Reconnected?
    || e.SeenBehindNat? || e.LookupMissed? || e.LookupLost?
  }

  lemma PeripheralSound(R: Relation, p: Platform, c: Core, e: Event, now: Msecs)
    requires MoveClosed(R) && Fit(R, c, now) && Enabled(c, e) && Peripheral(e)
    ensures StepSound(R, c, React(p, c, e, now), now, false)
  {
    hide MoveClosed, InboxInv, Lockstep, PeerFound, Fetched, HostDialled, DataOn, ConnectionLost, RetriedAll, P2pFailed,
      SendMessage, Acked, StoreMissed, Discards, StoreTags, Asked;
    match e
    case FindPeer(nick) => AskSound(R, c, c.net, Find(nick), now);
    case Accept => NetSound(R, c, Accepted(c.net), now);
    case Opened(conn) => NetSound(R, c, DialOpened(c.net, conn, HandshakeBytes(p, c.me.nick, c.me.pub)), now);
    case NetworkDown => NetSound(R, c, AllDropped(c.net), now);
    case NetworkUp =>
      NetSound(R, c, AllDropped(c.net), now);
      AskSound(R, c, AllDropped(c.net), Fetch(c.me.nick), now);
    case Poll => AskSound(R, c, c.net, Fetch(c.me.nick), now);
    case Reconnected =>
      NetSound(R, c, c.net.(skipP2p := false), now);
      AskSound(R, c, c.net.(skipP2p := false), Register(c.me.nick, c.me.port, c.me.pub), now);
    case SeenBehindNat => NetSound(R, c, c.net.(skipP2p := true), now);
    case LookupMissed => PassedLockstep(c);
    case LookupLost => PassedLockstep(c);
  }

  lemma ReactSound(R: Relation, p: Platform, c: Core, e: Event, now: Msecs)
    requires MoveClosed(R) && Fit(R, c, now) && Enabled(c, e)
    requires e.StoreReply? ==> AckLaw(R, c.mail, Verdict(e.ok), now)
    requires e.StoreLost? ==> LossLaw(R, c.mail, now)
    ensures StepSound(R, c, React(p, c, e, now), now, Discarding(c, e))
  {
    hide MoveClosed, InboxInv, Lockstep, PeerFound, Fetched, HostDialled, DataOn, ConnectionLost, RetriedAll, P2pFailed,
      MessageSent, Acked, StoreMissed, Discards, StoreTags, Asked;
    match e
    case Send(peer, chat) =>
      var sent := chat.(sender := c.me.nick);
      SendMoves(R, p, c, peer, sent, now);
      WentSound(R, c, MessageSent(p, c, peer, sent, now), now, false);
    case StoreReply(ok) =>
      Ack(R, c.mail, Verdict(ok), now);
      WentSound(R, c, c.(mail := Acked(c.mail, Verdict(ok))), now, false);
    case StoreLost =>
      Lose(R, c.mail, now);
      WentSound(R, c, c.(mail := StoreMissed(c.mail)), now, false);
    case LookupReply(nick, key) => LookupSound(R, p, c, nick, key, now);
    case FetchReply(blobs) =>
      FetchEvolves(R, p, c, blobs, now);
      WentSound(R, c, Fetched(p, c, blobs, now), now, false);
    case DialPeer(peer) =>
      DialGoes(R, p, c, peer, now);
      WentSound(R, c, HostDialled(p, c, peer), now, c.net.skipP2p && Discards(c, peer));
    case Data(conn, data) => DataSound(R, p, c, conn, data, now);
    case Expired(conn) => ExpirySound(R, p, c, conn, c.net.attempts[conn], now);
    case Closed(conn) =>
      LostMoves(R, p, c, conn, now);
      WentSound(R, c, ConnectionLost(p, c, conn), now, false);
    case RetryTimer =>
      RetryAllMoves(R, c, c.peers.order, now);
      WentSound(R, c, RetriedAll(c, c.peers.order), now, false);
    case _ => PeripheralSound(R, p, c, e, now);
  }

  // ── whole runs ─────────────────────────────────────────────────────────────

  /** Times do not decrease along a run that starts at `t`. */
  predicate InTime(events: seq<Timed>, t: Msecs) {
    (forall i :: 0 <= i < |events| ==> t <= events[i].now)
    && (forall i, j :: 0 <= i <= j < |events| ==> events[i].now <= events[j].now)
  }

  function EndTime(events: seq<Timed>, t: Msecs): Msecs {
    if events == [] then t else events[|events| - 1].now
  }

  /** Some event of the run discarded packets. */
  predicate DiscardsSomewhere(p: Platform, c: Core, events: seq<Timed>) {
    events != [] &&
    var before := Run(p, c, events[..|events| - 1]);
    var e := events[|events| - 1].event;
    DiscardsSomewhere(p, c, events[..|events| - 1]) || (Enabled(before, e) && Discarding(before, e))
  }

  lemma StepSounds(R: Relation, p: Platform, c: Core, e: Timed, t: Msecs)
    requires MoveClosed(R) && AckClosed(R) && Fit(R, c, t) && t <= e.now
    ensures StepSound(R, c, Step(p, c, e), e.now, Enabled(c, e.event) && Discarding(c, e.event))
  {
    hide MoveClosed, InboxInv, Lockstep, React, Enabled, Discarding;
    Later(R, c.mail, t, e.now);
    if Enabled(c, e.event) {
      ReactSound(R, p, c, e.event, e.now);
    }
  }

  /** Over every run the mail moves within `R`, blobs stay accounted for, and verification in lockstep. */
  lemma {:induction false} RunSound(R: Relation, p: Platform, c: Core, events: seq<Timed>, t: Msecs)
    requires MoveClosed(R) && AckClosed(R) && Fit(R, c, t) && InTime(events, t)
    ensures StepSound(R, c, Run(p, c, events), EndTime(events, t), DiscardsSomewhere(p, c, events))
  {
    hide MoveClosed, InboxInv, Lockstep, Step, Enabled, Discarding;
    if events != [] {
      var front, e := events[..|events| - 1], events[|events| - 1];
      RunSound(R, p, c, front, t);
      var before, lost := Run(p, c, front), DiscardsSomewhere(p, c, front);
      End(R, c.mail, before.mail, EndTime(front, t), lost);
      StepSounds(R, p, before, e, EndTime(front, t));
      Chain(R, c.mail, before.mail, Step(p, before, e).mail, EndTime(front, t), e.now, lost,
            Enabled(before, e.event) && Discarding(before, e.event));
    }
  }

  // ── the mail invariants over runs ──────────────────────────────────────────

  ghost predicate Invariant(c: Core, now: Msecs) {
    MailInv(c.mail, now) && InboxInv(c.inbox) && Lockstep(c)
  }

  /** From `c` to `d` the invariants hold, message rows keep their contents, and losses are the discards. */
  ghost predicate Keeps(c: Core, d: Core, now: Msecs, discards: bool) {
    && Invariant(d, now) && d.me == c.me && Extends(c.mail.db.messages, d.mail.db.messages)
    && (AnyLost(d.mail.trace.drained) <==> AnyLost(c.mail.trace.drained) || discards)
  }

  lemma FitIsInvariant(c: Core, now: Msecs)
    ensures Fit(Kept(), c, now) <==> Invariant(c, now)
  {
    hide MailInv, InboxInv, Lockstep, Kept, Holds;
    KeptStates(c.mail, now);
  }

  lemma SoundKeeps(c: Core, d: Core, now: Msecs, discards: bool)
    requires StepSound(Kept(), c, d, now, discards)
    ensures Keeps(c, d, now, discards)
  {
    hide MailInv, InboxInv, Lockstep, Extends, AnyLost;
    assert Advances(c.mail, d.mail, now, discards);
  }

  lemma SendKeeps(p: Platform, c: Core, peer: QString, chat: Chat, now: Msecs)
    requires Invariant(c, now)
    ensures Keeps(c, SendMessage(p, c, peer, chat, now), now, false)
  {
    hide Invariant, Fit, Kept, MoveClosed, Keeps, StepSound, SendMessage;
    KeptIsClosed();
    FitIsInvariant(c, now);
    ReactSound(Kept(), p, c, Send(peer, chat), now);
    SoundKeeps(c, SendMessage(p, c, peer, chat, now), now, false);
  }

  /**
   * In every state of every run the invariants hold; message rows keep their contents; and packets are
   * lost exactly in runs where a peer-to-peer failure meets a peer without a key.
   */
  lemma RunKeeps(p: Platform, c: Core, events: seq<Timed>, t: Msecs)
    requires Invariant(c, t) && InTime(events, t)
    ensures Keeps(c, Run(p, c, events), EndTime(events, t), DiscardsSomewhere(p, c, events))
  {
    hide Invariant, Fit, Kept, MoveClosed, AckClosed, InTime, DiscardsSomewhere, Keeps, StepSound, Run, EndTime;
    KeptIsClosed();
    FitIsInvariant(c, t);
    RunSound(Kept(), p, c, events, t);
    SoundKeeps(c, Run(p, c, events), EndTime(events, t), DiscardsSomewhere(p, c, events));
  }

  lemma InvariantLater(c: Core, t: Msecs, now: Msecs)
    requires Invariant(c, t) && t <= now
    ensures Invariant(c, now)
  {
    hide MailInv, InboxInv, Lockstep, Extends, AnyLost;
    AdvancesSelf(c.mail, t, now);
  }

  lemma StartInvariant(me: Me, t: Msecs)
    ensures Invariant(Start(me), t)
  {
    var c := Start(me);
    assert Arrivals(c.inbox.buffer) == {};
    assert Ids(StoreTags(c.mail.out)) == [];
    assert Unanswered(StoreTags(c.mail.out), 0) == [];
  }

  /** The same from login on: in every reachable state nothing has been lost unless an event discarded it. */
  lemma ReachableSound(p: Platform, me: Me, events: seq<Timed>, t: Msecs)
    requires InTime(events, t)
    ensures var c := Run(p, Start(me), events);
            && Invariant(c, EndTime(events, t))
            && (AnyLost(c.mail.trace.drained) <==> DiscardsSomewhere(p, Start(me), events))
  {
    hide Run, Invariant, DiscardsSomewhere;
    StartInvariant(me, t);
    RunKeeps(p, Start(me), events, t);
  }
}
