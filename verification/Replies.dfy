/**
 * What replies to STOREs do over whole runs: exactly when a message that was read stops showing it, and
 * exactly when every reply settles the message it answers.
 */
module Replies {
  import opened Bytes
  import opened Platform
  import opened DataStream
  import opened LocalDb
  import opened Core
  import opened MailMoves
  import opened MailInvariants
  import opened CoreInvariants
  import opened CoreRuns

  // ── a property that only replies can spoil ─────────────────────────────────

  /** The invariants are kept, and so is a property of the mail. */
  ghost function Also(Q: Mail -> bool): Relation {
    (m: Mail, n: Mail, now: Msecs, discards: bool) => Advances(m, n, now, discards) && (Q(m) ==> Q(n))
  }

  predicate KeptByLog(Q: Mail -> bool, m: Mail, e: Outbound) {
    Q(m) && e.origin.Unowned? ==> Q(Logged(m, e))
  }

  predicate KeptByStore(Q: Mail -> bool, m: Mail, chat: Chat, at: Msecs, r: Receipt) {
    Q(m) ==> Q(Incoming(m, chat, at)) && Q(Receipted(m, r))
  }

  predicate KeptBySend(Q: Mail -> bool, m: Mail, peer: QString, chat: Chat, e: Outbound, now: Msecs) {
    Q(m) ==> (Q(SentHeld(m, peer, chat, now)) && (Carrier(m, e) ==> Q(SentNow(m, peer, chat, e, now))))
  }

  ghost predicate KeptByDrain(Q: Mail -> bool, m: Mail, peer: QString, entries: seq<Outbound>, lost: bool) {
    Q(m) && (if lost then entries == [] else Carries(entries, peer, Peeked(m.db, peer)))
    ==> Q(Drained(m, peer, entries, lost))
  }

  predicate KeptByLoss(Q: Mail -> bool, m: Mail) {
    Q(m) && Answerable(m) ==> Q(StoreMissed(m))
  }

  /** Kept by every move but an acknowledgement. */
  ghost predicate Preserved(Q: Mail -> bool) {
    && (forall m, e, now: Msecs :: MailInv(m, now) ==> KeptByLog(Q, m, e))
    && (forall m, chat, at: Msecs, r, now: Msecs :: MailInv(m, now) ==> KeptByStore(Q, m, chat, at, r))
    && (forall m, peer: QString, chat, e, now: Msecs :: MailInv(m, now) ==> KeptBySend(Q, m, peer, chat, e, now))
    && (forall m, peer: QString, entries, lost, now: Msecs ::
          MailInv(m, now) ==> KeptByDrain(Q, m, peer, entries, lost))
    && (forall m, now: Msecs :: MailInv(m, now) ==> KeptByLoss(Q, m))
  }

  /** An acknowledgement keeps the property exactly when it does not spoil it. */
  ghost predicate AckExact(Q: Mail -> bool, Spoils: Mail -> bool) {
    forall m, ok, now: Msecs :: MailInv(m, now) && Q(m) && Answerable(m) ==> (Q(Acked(m, Verdict(ok))) <==> !Spoils(m))
  }

  predicate Answerable(m: Mail) {
    m.trace.answered < |StoreTags(m.out)|
  }

  lemma AlsoStates(Q: Mail -> bool, m: Mail, now: Msecs)
    ensures Holds(Also(Q), m, now) <==> MailInv(m, now)
  {
    hide MailInv;
    assert Holds(Also(Q), m, now) <==> Advances(m, m, now, false);
    assert Holds(Kept(), m, now) <==> Advances(m, m, now, false);
    KeptStates(m, now);
  }

  lemma AlsoIsClosed(Q: Mail -> bool)
    requires Preserved(Q)
    ensures MoveClosed(Also(Q)) && (forall m, now: Msecs :: LossLaw(Also(Q), m, now))
  {
    var R := Also(Q);
    hide Advances, MailInv, Logged, Incoming, Receipted, SentHeld, SentNow, Carrier, Drained, Carries, Peeked, Holds,
      StoreMissed, StoreTags;
    forall m, t: Msecs, now: Msecs ensures LaterLaw(R, m, t, now) {
      AlsoStates(Q, m, t);
      AlsoStates(Q, m, now);
      KeepsLater(m, t, now);
      KeptStates(m, t);
      KeptStates(m, now);
    }
    forall m, n, now: Msecs, discards ensures EndLaw(R, m, n, now, discards) {
      AlsoStates(Q, n, now);
      KeepsEnd(m, n, now, discards);
      KeptStates(n, now);
    }
    forall a, b, c, t: Msecs, now: Msecs, before, discards ensures ChainLaw(R, a, b, c, t, now, before, discards) {
      KeepsChain(a, b, c, t, now, before, discards);
    }
    forall m, e, now: Msecs ensures LogLaw(R, m, e, now) {
      AlsoStates(Q, m, now);
      KeptStates(m, now);
      KeepsLog(m, e, now);
      assert MailInv(m, now) ==> KeptByLog(Q, m, e);
    }
    forall m, chat, at: Msecs, r, now: Msecs ensures StoreLaw(R, m, chat, at, r, now) {
      AlsoStates(Q, m, now);
      KeptStates(m, now);
      KeepsStore(m, chat, at, r, now);
      assert MailInv(m, now) ==> KeptByStore(Q, m, chat, at, r);
    }
    forall m, peer: QString, chat, e, now: Msecs ensures SendLaw(R, m, peer, chat, e, now) {
      AlsoStates(Q, m, now);
      KeptStates(m, now);
      KeepsSend(m, peer, chat, e, now);
      assert MailInv(m, now) ==> KeptBySend(Q, m, peer, chat, e, now);
    }
    forall m, now: Msecs ensures LossLaw(R, m, now) {
      AlsoStates(Q, m, now);
      KeptStates(m, now);
      KeepsLoss(m, now);
      assert MailInv(m, now) ==> KeptByLoss(Q, m);
    }
    forall m, peer: QString, entries, lost, now: Msecs ensures DrainLaw(R, m, peer, entries, lost, now) {
      AlsoStates(Q, m, now);
      KeptStates(m, now);
      KeepsDrain(m, peer, entries, lost, now);
      assert MailInv(m, now) ==> KeptByDrain(Q, m, peer, entries, lost);
    }
  }

  lemma AlsoInvariant(Q: Mail -> bool, c: Core, now: Msecs)
    ensures Fit(Also(Q), c, now) <==> Invariant(c, now)
  {
    hide MailInv, InboxInv, Lockstep, Holds, Also;
    AlsoStates(Q, c.mail, now);
  }

  /** One event keeps the property exactly when it is not a reply that spoils it. */
  lemma ReactExactly(Q: Mail -> bool, Spoils: Mail -> bool, p: Platform, c: Core, e: Event, now: Msecs)
    requires Preserved(Q) && AckExact(Q, Spoils) && Invariant(c, now) && Enabled(c, e) && Q(c.mail)
    ensures Q(React(p, c, e, now).mail) <==> !(e.StoreReply? && Spoils(c.mail))
  {
    hide MailInv, InboxInv, Lockstep, Preserved, Acked, StoreTags, MoveClosed, Advances, Fit;
    if e.StoreReply? {
      assert Answerable(c.mail);
      assert React(p, c, e, now).mail == Acked(c.mail, Verdict(e.ok));
    } else {
      hide React, Enabled, Invariant, AckExact;
      AlsoIsClosed(Q);
      AlsoInvariant(Q, c, now);
      if e.StoreLost? { assert LossLaw(Also(Q), c.mail, now); }
      ReactSound(Also(Q), p, c, e, now);
    }
  }

  /** In every state of a run. */
  predicate Throughout(Q: Mail -> bool, p: Platform, c: Core, events: seq<Timed>) {
    Q(Run(p, c, events).mail) && (events == [] || Throughout(Q, p, c, events[..|events| - 1]))
  }

  /** Some reply of the run meets such a state. */
  predicate ReplyMeets(S: Mail -> bool, p: Platform, c: Core, events: seq<Timed>) {
    events != [] &&
    var before := Run(p, c, events[..|events| - 1]);
    var e := events[|events| - 1].event;
    ReplyMeets(S, p, c, events[..|events| - 1]) || (Enabled(before, e) && e.StoreReply? && S(before.mail))
  }

  lemma StepExactly(Q: Mail -> bool, Spoils: Mail -> bool, p: Platform, c: Core, e: Timed, t: Msecs)
    requires Preserved(Q) && AckExact(Q, Spoils) && Invariant(c, t) && t <= e.now && Q(c.mail)
    ensures Q(Step(p, c, e).mail) <==> !(Enabled(c, e.event) && e.event.StoreReply? && Spoils(c.mail))
  {
    hide Preserved, AckExact, Invariant, Enabled, React;
    InvariantLater(c, t, e.now);
    if Enabled(c, e.event) { ReactExactly(Q, Spoils, p, c, e.event, e.now); }
  }

  /** The property holds in every state of a run exactly when no reply of the run spoils it. */
  lemma {:induction false} RunExactly(Q: Mail -> bool, Spoils: Mail -> bool, p: Platform, c: Core, events: seq<Timed>,
                                      t: Msecs)
    requires Preserved(Q) && AckExact(Q, Spoils) && Invariant(c, t) && InTime(events, t) && Q(c.mail)
    ensures Throughout(Q, p, c, events) <==> !ReplyMeets(Spoils, p, c, events)
  {
    hide Preserved, AckExact, Invariant, Enabled, Step, AnyLost, Extends, DiscardsSomewhere;
    if events != [] {
      var front, e := events[..|events| - 1], events[|events| - 1];
      RunExactly(Q, Spoils, p, c, front, t);
      RunKeeps(p, c, front, t);
      if Throughout(Q, p, c, front) {
        LastState(Q, p, c, front);
        StepExactly(Q, Spoils, p, Run(p, c, front), e, EndTime(front, t));
      }
    }
  }

  lemma LastState(Q: Mail -> bool, p: Platform, c: Core, events: seq<Timed>)
    requires Throughout(Q, p, c, events)
    ensures Q(Run(p, c, events).mail)
  {
  }

  // ── a read message shows it ────────────────────────────────────────────────

  /** Every sent message that was read has status Read. */
  predicate Shown(m: Mail) {
    forall i :: 0 <= i < |m.db.messages| && m.db.messages[i].outgoing && m.db.messages[i].isRead
                ==> m.db.messages[i].status == MsgRead
  }

  /** The next reply's status goes to a sent message that has been read. */
  predicate HidesRead(m: Mail) {
    m.relayIds != [] && exists i :: 0 <= i < |m.db.messages| && ReadWithId(m.db.messages[i], m.relayIds[0])
  }

  predicate ReadWithId(row: Row, id: int) {
    row.id == id && row.outgoing && row.isRead
  }

  lemma ShownPreserved()
    ensures Preserved(Shown)
  {
    forall m, e, now: Msecs | MailInv(m, now) ensures KeptByLog(Shown, m, e) {
    }
    forall m, chat, at: Msecs, r, now: Msecs | MailInv(m, now) ensures KeptByStore(Shown, m, chat, at, r) {
      ShownStored(m, chat, at, r);
    }
    forall m, peer: QString, chat, e, now: Msecs | MailInv(m, now) ensures KeptBySend(Shown, m, peer, chat, e, now) {
      hide MailInv, SentHeld, SentNow, Carrier, Shown;
      if Shown(m) { ShownSent(m, peer, chat, e, now); }
    }
    forall m, peer: QString, entries, lost, now: Msecs | MailInv(m, now)
      ensures KeptByDrain(Shown, m, peer, entries, lost)
    {
      hide MailInv;
      assert Drained(m, peer, entries, lost).db.messages == m.db.messages;
    }
    forall m, now: Msecs | MailInv(m, now) ensures KeptByLoss(Shown, m) {
      hide MailInv, StoreTags;
      assert StoreMissed(m).db == m.db;
    }
    hide Shown, MailInv, KeptByLog, KeptByStore, KeptBySend, KeptByDrain, KeptByLoss;
  }

  lemma ShownStored(m: Mail, chat: Chat, at: Msecs, r: Receipt)
    ensures Shown(m) ==> Shown(Incoming(m, chat, at)) && Shown(Receipted(m, r))
  {
    hide Secs;
  }

  lemma ShownSent(m: Mail, peer: QString, chat: Chat, e: Outbound, now: Msecs)
    requires MailInv(m, now) && Shown(m)
    ensures Shown(SentHeld(m, peer, chat, now)) && Shown(SentNow(m, peer, chat, e, now))
  {
    hide Watermark, Correlated, Conserved, Accounted, Increasing, StoreTags, Ids, MessageBytes, Secs;
    var status := if e.ToServer? then MsgPending else MsgSent;
    ShownRow(m.db, peer, chat, now, MsgPending);
    ShownRow(m.db, peer, chat, now, status);
  }

  lemma ShownRow(db: Db, peer: QString, chat: Chat, now: Msecs, status: Status)
    requires db.ready && Numbered(db)
    ensures var rows := SetStatus(Saved(db, peer, chat, now, true).messages, SavedId(db), status);
            && |rows| == |db.messages| + 1 && rows[..|db.messages|] == db.messages && !rows[|db.messages|].isRead
  {
    hide Secs;
  }

  lemma ShownExact()
    ensures AckExact(Shown, HidesRead)
  {
    forall m, ok, now: Msecs | MailInv(m, now) && Shown(m) && Answerable(m)
      ensures Shown(Acked(m, Verdict(ok))) <==> !HidesRead(m)
    {
      ShownAcked(m, ok, now);
    }
  }

  lemma ShownAcked(m: Mail, ok: bool, now: Msecs)
    requires MailInv(m, now) && Shown(m)
    ensures Shown(Acked(m, Verdict(ok))) <==> !HidesRead(m)
  {
    hide Watermark, Correlated, Conserved, Accounted, StoreTags, Ids, Numbered;
    if m.relayIds != [] {
      var rows, after := m.db.messages, Acked(m, Verdict(ok)).db.messages;
      assert m.relayIds[0] >= 0 && after == SetStatus(rows, m.relayIds[0], Verdict(ok));
      if HidesRead(m) {
        var i :| 0 <= i < |rows| && ReadWithId(rows[i], m.relayIds[0]);
        assert after[i].outgoing && after[i].isRead && after[i].status != MsgRead;
      } else {
        forall i | 0 <= i < |after| && after[i].outgoing && after[i].isRead ensures after[i].status == MsgRead {
          assert !ReadWithId(rows[i], m.relayIds[0]);
        }
      }
    }
  }

  /** A read message shows it in every state of a run exactly when no reply hides it. */
  lemma ReadIsShown(p: Platform, me: Me, events: seq<Timed>, t: Msecs)
    requires InTime(events, t)
    ensures Throughout(Shown, p, Start(me), events) <==> !ReplyMeets(HidesRead, p, Start(me), events)
  {
    hide Preserved, AckExact, Invariant, Throughout, ReplyMeets;
    ShownPreserved();
    ShownExact();
    StartInvariant(me, t);
    RunExactly(Shown, HidesRead, p, Start(me), events, t);
  }

  // ── a reply settles the message it answers ─────────────────────────────────

  /** As many ids wait as unanswered STOREs carry, plus those whose STORE was lost. */
  predicate Even(m: Mail) {
    |m.relayIds| == |Ids(Unanswered(StoreTags(m.out), m.trace.answered))| + |m.trace.missed|
  }

  function Answered(m: Mail): Option<int>
    requires Answerable(m)
  {
    StoreTags(m.out)[m.trace.answered]
  }

  /** The next reply settles the message whose STORE it answers, and nothing if that STORE was no message's. */
  predicate SettlesOwn(m: Mail) {
    Answerable(m) ==>
      match Answered(m)
      case Some(id) => m.relayIds != [] && m.relayIds[0] == id
      case None => m.relayIds == []
  }

  predicate SettlesOther(m: Mail) {
    !SettlesOwn(m)
  }

  /** The next reply answers a STORE of no message while a message waits. */
  predicate SettlesEarly(m: Mail) {
    Answerable(m) && Answered(m).None? && m.relayIds != []
  }

  /** That, or the STORE of some message was lost before. */
  predicate OutOfStep(m: Mail) {
    Answerable(m) && (m.trace.missed != [] || SettlesEarly(m))
  }

  lemma EvenPreserved()
    ensures Preserved(Even)
  {
    forall m, e, now: Msecs | MailInv(m, now) ensures KeptByLog(Even, m, e) {
      EvenLogged(m, e, now);
    }
    forall m, chat, at: Msecs, r, now: Msecs | MailInv(m, now) ensures KeptByStore(Even, m, chat, at, r) {
    }
    forall m, peer: QString, chat, e, now: Msecs | MailInv(m, now) ensures KeptBySend(Even, m, peer, chat, e, now) {
      EvenSent(m, peer, chat, e, now);
    }
    forall m, now: Msecs | MailInv(m, now) ensures KeptByLoss(Even, m) {
      EvenLost(m);
    }
    forall m, peer: QString, entries, lost, now: Msecs | MailInv(m, now)
      ensures KeptByDrain(Even, m, peer, entries, lost)
    {
      EvenDrained(m, peer, entries, lost, now);
    }
    hide Even, MailInv, KeptByLog, KeptByStore, KeptBySend, KeptByDrain, KeptByLoss;
  }

  lemma EvenLogged(m: Mail, e: Outbound, now: Msecs)
    requires MailInv(m, now)
    ensures KeptByLog(Even, m, e)
  {
    hide Watermark, Conserved, Accounted, StoreTags, Ids, Numbered, Increasing, Unanswered;
    if e.origin.Unowned? { UnownedWaitsForNone(m.out, m.trace.answered, e); }
  }

  lemma EvenSent(m: Mail, peer: QString, chat: Chat, e: Outbound, now: Msecs)
    requires MailInv(m, now)
    ensures KeptBySend(Even, m, peer, chat, e, now)
  {
    hide Watermark, Conserved, Accounted, StoreTags, Ids, Numbered, Increasing, Saved, StatusUpdated, OutEnqueued,
      MessageBytes, Suffix;
    if Carrier(m, e) && Even(m) {
      var tags, n := StoreTags(m.out), m.trace.answered;
      TagsAppend(m.out, e);
      if e.ToServer? {
        IdsAppend(tags[n..], Some(e.origin.id));
        assert (tags + [Some(e.origin.id)])[n..] == tags[n..] + [Some(e.origin.id)];
      }
    }
  }

  lemma EvenDrained(m: Mail, peer: QString, entries: seq<Outbound>, lost: bool, now: Msecs)
    requires MailInv(m, now)
    ensures KeptByDrain(Even, m, peer, entries, lost)
  {
    hide Watermark, Conserved, Accounted, StoreTags, Ids, Numbered, Increasing, Unanswered, Peeked, Confirmed, Drains;
    if if lost then entries == [] else Carries(entries, peer, Peeked(m.db, peer)) {
      EntriesWaitForNone(m.out, m.trace.answered, entries);
    }
  }

  lemma EvenLost(m: Mail)
    ensures KeptByLoss(Even, m)
  {
    hide StoreTags, Ids, Unanswered;
    if Answerable(m) { NextAnswered(StoreTags(m.out), m.trace.answered); }
  }

  lemma EvenExact()
    ensures AckExact(Even, SettlesEarly)
  {
    forall m, ok, now: Msecs | MailInv(m, now) && Even(m) && Answerable(m)
      ensures Even(Acked(m, Verdict(ok))) <==> !SettlesEarly(m)
    {
      EvenAcked(m, ok);
    }
  }

  lemma EvenAcked(m: Mail, ok: bool)
    requires Even(m) && Answerable(m)
    ensures Even(Acked(m, Verdict(ok))) <==> !SettlesEarly(m)
  {
    hide StoreTags, Ids, StatusUpdated, Unanswered;
    NextAnswered(StoreTags(m.out), m.trace.answered);
  }

  /**
   * Every reply of a run settles its own message exactly when none answers a STORE of no message while one
   * waits, and none comes after the STORE of a message was lost.
   */
  lemma {:induction false} RepliesSettleOwn(p: Platform, me: Me, events: seq<Timed>, t: Msecs)
    requires InTime(events, t)
    ensures !ReplyMeets(SettlesOther, p, Start(me), events) <==> !ReplyMeets(OutOfStep, p, Start(me), events)
  {
    hide Preserved, AckExact, Invariant, Run, Enabled, Start, Even, SettlesOwn, OutOfStep, SettlesEarly, AnyLost,
      DiscardsSomewhere;
    if events != [] {
      var front := events[..|events| - 1];
      RepliesSettleOwn(p, me, front, t);
      var before := Run(p, Start(me), front);
      if !ReplyMeets(OutOfStep, p, Start(me), front) {
        NeverEarly(p, Start(me), front);
        EvenThroughout(p, me, front, t);
        ReachableSound(p, me, front, t);
        OwnUnlessOut(before, EndTime(front, t));
      }
    }
  }

  lemma {:induction false} NeverEarly(p: Platform, c: Core, events: seq<Timed>)
    ensures !ReplyMeets(OutOfStep, p, c, events) ==> !ReplyMeets(SettlesEarly, p, c, events)
  {
    hide Run, Enabled;
    if events != [] { NeverEarly(p, c, events[..|events| - 1]); }
  }

  lemma EvenThroughout(p: Platform, me: Me, events: seq<Timed>, t: Msecs)
    requires InTime(events, t) && !ReplyMeets(SettlesEarly, p, Start(me), events)
    ensures Even(Run(p, Start(me), events).mail)
  {
    hide Preserved, AckExact, Invariant, Throughout, ReplyMeets, Run;
    EvenPreserved();
    EvenExact();
    StartInvariant(me, t);
    RunExactly(Even, SettlesEarly, p, Start(me), events, t);
    LastState(Even, p, Start(me), events);
  }

  lemma OwnUnlessOut(c: Core, now: Msecs)
    requires Invariant(c, now) && Even(c.mail)
    ensures SettlesOwn(c.mail) <==> !OutOfStep(c.mail)
  {
    hide MailInv, InboxInv, Lockstep, Ids, StoreTags;
    if Answerable(c.mail) {
      NextAnswered(StoreTags(c.mail.out), c.mail.trace.answered);
      if c.mail.relayIds != [] { AckSettlesOwnId(c.mail, now); }
    }
  }
}
