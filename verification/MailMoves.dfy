/**
 * The moves by which any reaction changes the mail state, and what it means for a relation between mail
 * states to be closed under them. Whatever is proved of reactions for every closed relation holds of
 * each particular one, such as the mail invariants.
 */
module MailMoves {
  import opened Bytes
  import opened DataStream
  import opened LocalDb
  import opened Core

  /** Before, after, at what time, and whether packets were discarded on the way. */
  type Relation = (Mail, Mail, Msecs, bool) -> bool

  /** The states a relation is about are those it relates to themselves. */
  predicate Holds(R: Relation, m: Mail, now: Msecs) {
    R(m, m, now, false)
  }

  // ── the moves ──────────────────────────────────────────────────────────────

  function Logged(m: Mail, e: Outbound): Mail {
    m.(out := m.out + [e])
  }

  function Incoming(m: Mail, chat: Chat, at: Msecs): Mail {
    m.(db := Saved(m.db, chat.sender, chat, at, false))
  }

  function Receipted(m: Mail, r: Receipt): Mail {
    m.(db := MarkedRead(m.db, r.sender, r.upTo))
  }

  /** A message saved and queued. */
  function SentHeld(m: Mail, peer: QString, chat: Chat, now: Msecs): Mail {
    Recorded(m.(db := Saved(m.db, peer, chat, now, true)), peer, SavedId(m.db), MessageBytes(chat, now), Queued)
  }

  /** A message saved and handed over in one log entry, on the route of that entry. */
  function SentNow(m: Mail, peer: QString, chat: Chat, e: Outbound, now: Msecs): Mail {
    Recorded(Logged(m.(db := Saved(m.db, peer, chat, now, true)), e), peer, SavedId(m.db), MessageBytes(chat, now),
             if e.ToServer? then Relayed else Direct)
  }

  predicate Carrier(m: Mail, e: Outbound) {
    e.origin == FromMessage(SavedId(m.db)) && (e.ToServer? ==> e.cmd.Store?)
  }

  /** Entries that hand over exactly these packets of one peer's outbox. */
  ghost predicate Carries(entries: seq<Outbound>, peer: QString, packets: seq<bytes>) {
    |entries| == |packets| && forall i :: 0 <= i < |entries| ==> entries[i].origin == FromOutbox(peer, packets[i])
  }

  // ── closure ────────────────────────────────────────────────────────────────

  predicate LaterLaw(R: Relation, m: Mail, t: Msecs, now: Msecs) {
    Holds(R, m, t) && t <= now ==> Holds(R, m, now)
  }

  predicate EndLaw(R: Relation, m: Mail, n: Mail, now: Msecs, discards: bool) {
    R(m, n, now, discards) ==> Holds(R, n, now)
  }

  predicate ChainLaw(R: Relation, a: Mail, b: Mail, c: Mail, t: Msecs, now: Msecs, before: bool, discards: bool) {
    R(a, b, t, before) && R(b, c, now, discards) ==> R(a, c, now, before || discards)
  }

  predicate LogLaw(R: Relation, m: Mail, e: Outbound, now: Msecs) {
    Holds(R, m, now) && e.origin.Unowned? ==> R(m, Logged(m, e), now, false)
  }

  predicate StoreLaw(R: Relation, m: Mail, chat: Chat, at: Msecs, r: Receipt, now: Msecs) {
    Holds(R, m, now) ==> R(m, Incoming(m, chat, at), now, false) && R(m, Receipted(m, r), now, false)
  }

  predicate SendLaw(R: Relation, m: Mail, peer: QString, chat: Chat, e: Outbound, now: Msecs) {
    Holds(R, m, now) ==>
      (R(m, SentHeld(m, peer, chat, now), now, false)
       && (Carrier(m, e) ==> R(m, SentNow(m, peer, chat, e, now), now, false)))
  }

  predicate AckLaw(R: Relation, m: Mail, status: Status, now: Msecs) {
    Holds(R, m, now) && m.trace.answered < |StoreTags(m.out)| && status != MsgRead
    ==> R(m, Acked(m, status), now, false)
  }

  predicate LossLaw(R: Relation, m: Mail, now: Msecs) {
    Holds(R, m, now) && m.trace.answered < |StoreTags(m.out)| ==> R(m, StoreMissed(m), now, false)
  }

  ghost predicate DrainLaw(R: Relation, m: Mail, peer: QString, entries: seq<Outbound>, lost: bool, now: Msecs) {
    Holds(R, m, now) && (if lost then entries == [] else Carries(entries, peer, Peeked(m.db, peer)))
    ==> R(m, Drained(m, peer, entries, lost), now, lost && Peeked(m.db, peer) != [])
  }

  /** A relation that every move but a reply to a STORE or the loss of one, and every chain of them, stays within. */
  ghost predicate MoveClosed(R: Relation) {
    && (forall m, t: Msecs, now: Msecs :: LaterLaw(R, m, t, now))
    && (forall m, n, now: Msecs, discards :: EndLaw(R, m, n, now, discards))
    && (forall a, b, c, t: Msecs, now: Msecs, before, discards :: ChainLaw(R, a, b, c, t, now, before, discards))
    && (forall m, e, now: Msecs :: LogLaw(R, m, e, now))
    && (forall m, chat, at: Msecs, r, now: Msecs :: StoreLaw(R, m, chat, at, r, now))
    && (forall m, peer: QString, chat, e, now: Msecs :: SendLaw(R, m, peer, chat, e, now))
    && (forall m, peer: QString, entries, lost, now: Msecs :: DrainLaw(R, m, peer, entries, lost, now))
  }

  ghost predicate AckClosed(R: Relation) {
    && (forall m, status, now: Msecs :: AckLaw(R, m, status, now))
    && (forall m, now: Msecs :: LossLaw(R, m, now))
  }

  /** The relation that says nothing is closed. */
  ghost function Anything(): Relation {
    (m, n, now, discards) => true
  }

  lemma AnythingIsClosed()
    ensures MoveClosed(Anything())
  {
  }

  // ── use ────────────────────────────────────────────────────────────────────

  lemma Later(R: Relation, m: Mail, t: Msecs, now: Msecs)
    requires MoveClosed(R) && Holds(R, m, t) && t <= now
    ensures Holds(R, m, now)
  {
    assert LaterLaw(R, m, t, now);
  }

  lemma End(R: Relation, m: Mail, n: Mail, now: Msecs, discards: bool)
    requires MoveClosed(R) && R(m, n, now, discards)
    ensures Holds(R, n, now)
  {
    assert EndLaw(R, m, n, now, discards);
  }

  lemma Chain(R: Relation, a: Mail, b: Mail, c: Mail, t: Msecs, now: Msecs, before: bool, discards: bool)
    requires MoveClosed(R) && R(a, b, t, before) && R(b, c, now, discards)
    ensures R(a, c, now, before || discards)
  {
    assert ChainLaw(R, a, b, c, t, now, before, discards);
  }

  lemma Log(R: Relation, m: Mail, e: Outbound, now: Msecs)
    requires MoveClosed(R) && Holds(R, m, now) && e.origin.Unowned?
    ensures R(m, Logged(m, e), now, false)
  {
    hide Logged;
    assert LogLaw(R, m, e, now);
  }

  lemma StoreIncoming(R: Relation, m: Mail, chat: Chat, at: Msecs, now: Msecs)
    requires MoveClosed(R) && Holds(R, m, now)
    ensures R(m, Incoming(m, chat, at), now, false)
  {
    hide Incoming, Receipted;
    assert StoreLaw(R, m, chat, at, Receipt([], 0), now);
  }

  lemma StoreReceipt(R: Relation, m: Mail, r: Receipt, now: Msecs)
    requires MoveClosed(R) && Holds(R, m, now)
    ensures R(m, Receipted(m, r), now, false)
  {
    hide Incoming, Receipted;
    assert StoreLaw(R, m, Chat([], [], 0, [], []), 0, r, now);
  }

  lemma SendHeld(R: Relation, m: Mail, peer: QString, chat: Chat, now: Msecs)
    requires MoveClosed(R) && Holds(R, m, now)
    ensures R(m, SentHeld(m, peer, chat, now), now, false)
  {
    hide SentHeld, SentNow, Carrier;
    assert SendLaw(R, m, peer, chat, ToPeers([], Unowned), now);
  }

  lemma SendNow(R: Relation, m: Mail, peer: QString, chat: Chat, e: Outbound, now: Msecs)
    requires MoveClosed(R) && Holds(R, m, now) && Carrier(m, e)
    ensures R(m, SentNow(m, peer, chat, e, now), now, false)
  {
    hide SentHeld, SentNow, Carrier;
    assert SendLaw(R, m, peer, chat, e, now);
  }

  lemma Ack(R: Relation, m: Mail, status: Status, now: Msecs)
    requires AckLaw(R, m, status, now) && Holds(R, m, now) && m.trace.answered < |StoreTags(m.out)| && status != MsgRead
    ensures R(m, Acked(m, status), now, false)
  {
    hide Acked, StoreTags;
  }

  lemma Lose(R: Relation, m: Mail, now: Msecs)
    requires LossLaw(R, m, now) && Holds(R, m, now) && m.trace.answered < |StoreTags(m.out)|
    ensures R(m, StoreMissed(m), now, false)
  {
    hide StoreMissed, StoreTags;
  }

  lemma DrainPackets(R: Relation, m: Mail, peer: QString, entries: seq<Outbound>, lost: bool, now: Msecs)
    requires MoveClosed(R) && Holds(R, m, now)
    requires if lost then entries == [] else Carries(entries, peer, Peeked(m.db, peer))
    ensures R(m, Drained(m, peer, entries, lost), now, lost && Peeked(m.db, peer) != [])
  {
    hide Drained, Carries, Peeked;
    assert DrainLaw(R, m, peer, entries, lost, now);
  }
}
