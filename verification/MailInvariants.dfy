/**
 * What holds of the message table, the outbox, the acknowledgement queue and the transport log in
 * every state: acknowledgements stay correlated, packets are conserved, and reads are a watermark.
 */
module MailInvariants {
  import opened Bytes
  import opened DataStream
  import opened LocalDb
  import opened Core
  import opened MailMoves

  // ── the parts ──────────────────────────────────────────────────────────────

  function Ids(tags: seq<Option<int>>): seq<int> {
    if tags == [] then []
    else
      var last := tags[|tags| - 1];
      Ids(tags[..|tags| - 1]) + if last.Some? then [last.value] else []
  }

  predicate Suffix(a: seq<int>, b: seq<int>) {
    |a| <= |b| && forall i :: 0 <= i < |a| ==> a[i] == b[|b| - |a| + i]
  }

  predicate AllOwned(tags: seq<Option<int>>) {
    forall i :: 0 <= i < |tags| ==> tags[i].Some?
  }

  /** The STOREs handed over and not answered yet. */
  function Unanswered(tags: seq<Option<int>>, answered: nat): seq<Option<int>> {
    if answered <= |tags| then tags[answered..] else []
  }

  /**
   * The waiting ids are the last ones handed over, and no more of them than unanswered STOREs carry, plus one
   * for every id whose STORE was lost; exactly that many when every STORE carried one.
   */
  ghost predicate Correlated(relayIds: seq<int>, tags: seq<Option<int>>, answered: nat, missed: nat) {
    && answered <= |tags|
    && Suffix(relayIds, Ids(tags))
    && |relayIds| <= |Ids(Unanswered(tags, answered))| + missed
    && (AllOwned(tags) ==> |relayIds| == |Ids(Unanswered(tags, answered))| + missed)
  }

  predicate Increasing(ids: seq<int>, bound: int) {
    (forall i, j :: 0 <= i < j < |ids| ==> ids[i] < ids[j]) && (forall i :: 0 <= i < |ids| ==> 0 <= ids[i] < bound)
  }

  function DrainedTo(drained: seq<Drain>, peer: QString): seq<bytes> {
    if drained == [] then []
    else
      var last := drained[|drained| - 1];
      DrainedTo(drained[..|drained| - 1], peer) + if last.peer == peer then [last.packet] else []
  }

  function KeptTo(drained: seq<Drain>, peer: QString): seq<bytes> {
    if drained == [] then []
    else
      var last := drained[|drained| - 1];
      KeptTo(drained[..|drained| - 1], peer) + if last.peer == peer && !last.lost then [last.packet] else []
  }

  predicate AnyLost(drained: seq<Drain>) {
    exists i :: 0 <= i < |drained| && drained[i].lost
  }

  /** The outbox packets of one peer found in the transport log. */
  function FlushedTo(out: seq<Outbound>, peer: QString): seq<bytes> {
    if out == [] then []
    else
      var origin := out[|out| - 1].origin;
      FlushedTo(out[..|out| - 1], peer) + if origin.FromOutbox? && origin.peer == peer then [origin.packet] else []
  }

  /**
   * Per peer and in order: packets queued = packets drained, then packets still in the outbox; and the
   * drained ones that were not lost are those handed to a transport, once each.
   */
  ghost predicate Conserved(queued: seq<OutRow>, drained: seq<Drain>, outbox: seq<OutRow>, out: seq<Outbound>) {
    forall peer: QString ::
      && Blobs(queued, peer) == DrainedTo(drained, peer) + Blobs(outbox, peer)
      && KeptTo(drained, peer) == FlushedTo(out, peer)
  }

  /** The message row with an id, if there is one, is Pending or Read. */
  ghost predicate PendingOrRead(rows: seq<Row>, id: int) {
    forall i :: 0 <= i < |rows| && rows[i].id == id ==> rows[i].status == MsgPending || rows[i].status == MsgRead
  }

  /** A packet in the outbox waits for no acknowledgement, and its row is Pending or already Read. */
  ghost predicate Accounted(owner: map<int, int>, db: Db, relayIds: seq<int>) {
    && (forall o :: o in owner ==> 0 <= o < db.nextOut && 0 <= owner[o] < db.nextMessage)
    && (forall row :: row in db.outbox ==>
          row.id in owner && owner[row.id] !in relayIds && PendingOrRead(db.messages, owner[row.id]))
  }

  ghost predicate MailInv(m: Mail, now: Msecs) {
    && m.db.ready && Numbered(m.db) && Watermark(m.db.messages, now)
    && Correlated(m.relayIds, StoreTags(m.out), m.trace.answered, |m.trace.missed|)
    && Increasing(Ids(StoreTags(m.out)), m.db.nextMessage) && Increasing(m.relayIds, m.db.nextMessage)
    && Conserved(m.trace.queued, m.trace.drained, m.db.outbox, m.out)
    && Accounted(m.trace.owner, m.db, m.relayIds)
  }

  /** A move from `m` to `n`: the invariants hold, rows keep their contents, and losses are the discards. */
  ghost predicate Advances(m: Mail, n: Mail, now: Msecs, discards: bool) {
    && MailInv(n, now) && Extends(m.db.messages, n.db.messages)
    && (AnyLost(n.trace.drained) <==> AnyLost(m.trace.drained) || discards)
  }

  lemma AdvancesTransitive(a: Mail, b: Mail, c: Mail, t: Msecs, now: Msecs, before: bool, discards: bool)
    requires Advances(a, b, t, before) && Advances(b, c, now, discards)
    ensures Advances(a, c, now, before || discards)
  {
    hide MailInv, Extends, AnyLost;
    ExtendsTransitive(a.db.messages, b.db.messages, c.db.messages);
  }

  lemma AdvancesSelf(m: Mail, t: Msecs, now: Msecs)
    requires MailInv(m, t) && t <= now
    ensures Advances(m, m, now, false)
  {
    SecsMonotone(t, now);
    hide Secs, Correlated, Conserved, Accounted, Numbered;
  }

  // ── the logs grow ──────────────────────────────────────────────────────────

  predicate IsStore(e: Outbound) {
    e.ToServer? && e.cmd.Store?
  }

  function TagOf(e: Outbound): Option<int> {
    if e.origin.FromMessage? then Some(e.origin.id) else None
  }

  lemma TagsAppend(out: seq<Outbound>, e: Outbound)
    ensures StoreTags(out + [e]) == if IsStore(e) then StoreTags(out) + [TagOf(e)] else StoreTags(out)
  {
    assert (out + [e])[..|out|] == out;
    assert StoreTags(out) + [] == StoreTags(out);
  }

  lemma IdsAppend(tags: seq<Option<int>>, tag: Option<int>)
    ensures Ids(tags + [tag]) == if tag.Some? then Ids(tags) + [tag.value] else Ids(tags)
  {
    assert (tags + [tag])[..|tags|] == tags;
    assert Ids(tags) + [] == Ids(tags);
  }

  lemma {:induction false} IdsSplit(tags: seq<Option<int>>, n: nat)
    requires n <= |tags|
    ensures Ids(tags) == Ids(tags[..n]) + Ids(tags[n..])
  {
    if n == |tags| {
      assert tags[..n] == tags && tags[n..] == [];
    } else {
      var front := tags[..|tags| - 1];
      IdsSplit(front, n);
      assert front[..n] == tags[..n];
      assert tags[n..][..|tags[n..]| - 1] == front[n..];
    }
  }

  lemma FlushedAppend(out: seq<Outbound>, e: Outbound, peer: QString)
    ensures FlushedTo(out + [e], peer)
         == if e.origin.FromOutbox? && e.origin.peer == peer
            then FlushedTo(out, peer) + [e.origin.packet]
            else FlushedTo(out, peer)
  {
    assert (out + [e])[..|out|] == out;
    assert FlushedTo(out, peer) + [] == FlushedTo(out, peer);
  }

  lemma UnflushedConserved(queued: seq<OutRow>, drained: seq<Drain>, outbox: seq<OutRow>, out: seq<Outbound>,
                           e: Outbound)
    requires Conserved(queued, drained, outbox, out) && !e.origin.FromOutbox?
    ensures Conserved(queued, drained, outbox, out + [e])
  {
    forall peer: QString ensures FlushedTo(out + [e], peer) == FlushedTo(out, peer) {
      FlushedAppend(out, e, peer);
    }
    hide FlushedTo, Blobs, DrainedTo, KeptTo;
  }

  /** An entry that no message id waits on adds no id to wait for. */
  lemma UnownedWaitsForNone(out: seq<Outbound>, answered: nat, e: Outbound)
    requires answered <= |StoreTags(out)| && !e.origin.FromMessage?
    ensures Ids(Unanswered(StoreTags(out + [e]), answered)) == Ids(Unanswered(StoreTags(out), answered))
  {
    TagsAppend(out, e);
    var tags := StoreTags(out);
    hide StoreTags, Ids;
    if IsStore(e) {
      IdsAppend(tags[answered..], None);
      assert (tags + [None])[answered..] == tags[answered..] + [None];
    }
  }

  /** An entry that no message id waits on, whatever it is. */
  lemma UnownedKeepsCorrelation(relayIds: seq<int>, out: seq<Outbound>, answered: nat, missed: nat, e: Outbound)
    requires Correlated(relayIds, StoreTags(out), answered, missed) && !e.origin.FromMessage?
    ensures Correlated(relayIds, StoreTags(out + [e]), answered, missed)
    ensures Ids(StoreTags(out + [e])) == Ids(StoreTags(out))
  {
    TagsAppend(out, e);
    UnownedWaitsForNone(out, answered, e);
    var tags := StoreTags(out);
    hide StoreTags, Unanswered;
    if IsStore(e) {
      IdsAppend(tags, None);
      assert (tags + [None])[|tags|] == None;
    }
    hide Ids;
  }

  lemma SuffixAppend(a: seq<int>, b: seq<int>, x: int)
    requires Suffix(a, b)
    ensures Suffix(a + [x], b + [x])
  {
    assert (b + [x])[|b| - |a|..] == b[|b| - |a|..] + [x];
  }

  lemma IncreasingAppend(ids: seq<int>, x: int, bound: int)
    requires Increasing(ids, bound) && 0 <= x < bound && forall y :: y in ids ==> y < x
    ensures Increasing(ids + [x], bound)
  {
    assert forall i :: 0 <= i < |ids| ==> ids[i] in ids;
  }

  lemma EmitKeeps(m: Mail, e: Outbound, now: Msecs)
    requires MailInv(m, now) && e.origin.Unowned?
    ensures Advances(m, Logged(m, e), now, false)
  {
    hide Correlated, StoreTags, Ids, Watermark, Numbered, Conserved, Accounted, Extends, AnyLost, Increasing;
    UnownedKeepsCorrelation(m.relayIds, m.out, m.trace.answered, |m.trace.missed|, e);
    UnflushedConserved(m.trace.queued, m.trace.drained, m.db.outbox, m.out, e);
    AdvancesSelf(m, now, now);
  }

  // ── table updates ──────────────────────────────────────────────────────────

  lemma SaveAccounted(owner: map<int, int>, db: Db, relayIds: seq<int>, peer: QString, chat: Chat, at: Msecs,
                      outgoing: bool)
    requires Accounted(owner, db, relayIds)
    ensures Accounted(owner, Saved(db, peer, chat, at, outgoing), relayIds)
  {
    hide Secs;
  }

  lemma SaveKeeps(m: Mail, peer: QString, chat: Chat, at: Msecs, outgoing: bool, now: Msecs)
    requires MailInv(m, now) && (outgoing ==> at == now)
    ensures Advances(m, m.(db := Saved(m.db, peer, chat, at, outgoing)), now, false)
  {
    hide Correlated, StoreTags, Ids, Watermark, Numbered, Conserved, Accounted, Extends, NewRow, AnyLost;
    SavedKeeps(m.db, peer, chat, at, outgoing, now, now);
    SaveAccounted(m.trace.owner, m.db, m.relayIds, peer, chat, at, outgoing);
  }

  lemma StatusAccounted(owner: map<int, int>, db: Db, relayIds: seq<int>, id: int, status: Status)
    requires Accounted(owner, db, relayIds)
    requires status == MsgPending || forall row :: row in db.outbox ==> owner[row.id] != id
    ensures Accounted(owner, StatusUpdated(db, id, status), relayIds)
  {
  }

  lemma ReadAccounted(owner: map<int, int>, db: Db, relayIds: seq<int>, peer: QString, upTo: int64)
    requires Accounted(owner, db, relayIds)
    ensures Accounted(owner, MarkedRead(db, peer, upTo), relayIds)
  {
    hide Covered;
  }

  lemma MarkKeeps(m: Mail, peer: QString, upTo: int64, now: Msecs)
    requires MailInv(m, now)
    ensures Advances(m, m.(db := MarkedRead(m.db, peer, upTo)), now, false)
    ensures ReadUpTo(MarkedRead(m.db, peer, upTo).messages, peer, upTo)
  {
    hide Correlated, StoreTags, Ids, Watermark, Numbered, Conserved, Accounted, Extends, SetRead, AnyLost, Increasing;
    ReadKeeps(m.db, peer, upTo, now);
    ReadAccounted(m.trace.owner, m.db, m.relayIds, peer, upTo);
  }

  // ── acknowledgements ───────────────────────────────────────────────────────

  lemma FirstUntagged(u: seq<Option<int>>)
    requires u != [] && u[0] == None
    ensures Ids(u) == Ids(u[1..])
  {
    IdsSplit(u, 1);
    var none: seq<Option<int>> := [];
    IdsAppend(none, None);
    assert none + [None] == u[..1];
  }

  lemma FirstTagged(u: seq<Option<int>>)
    requires u != [] && u[0].Some?
    ensures Ids(u) == [u[0].value] + Ids(u[1..])
  {
    IdsSplit(u, 1);
    var none: seq<Option<int>> := [];
    IdsAppend(none, u[0]);
    assert none + [u[0]] == u[..1];
  }

  /** One STORE fewer is unanswered, and one id fewer if it carried one. */
  lemma NextAnswered(tags: seq<Option<int>>, answered: nat)
    requires answered < |tags|
    ensures |Ids(Unanswered(tags, answered))|
         == |Ids(Unanswered(tags, answered + 1))| + if tags[answered].Some? then 1 else 0
  {
    hide Ids;
    var u := tags[answered..];
    assert u[1..] == tags[answered + 1..];
    if u[0].Some? { FirstTagged(u); } else { FirstUntagged(u); }
  }

  lemma AckKeepsCorrelation(relayIds: seq<int>, tags: seq<Option<int>>, answered: nat, missed: nat)
    requires Correlated(relayIds, tags, answered, missed) && answered < |tags|
    ensures Correlated(if relayIds == [] then [] else relayIds[1..], tags, answered + 1, missed)
  {
    hide Ids, Unanswered;
    NextAnswered(tags, answered);
  }

  /** A lost STORE passes, and its id, if it carried one, goes on waiting. */
  lemma LossKeepsCorrelation(relayIds: seq<int>, tags: seq<Option<int>>, answered: nat, missed: nat)
    requires Correlated(relayIds, tags, answered, missed) && answered < |tags|
    ensures Correlated(relayIds, tags, answered + 1, missed + if tags[answered].Some? then 1 else 0)
  {
    hide Ids, Unanswered;
    NextAnswered(tags, answered);
  }

  lemma AckAccounted(owner: map<int, int>, db: Db, relayIds: seq<int>, status: Status)
    requires Accounted(owner, db, relayIds) && relayIds != []
    ensures Accounted(owner, StatusUpdated(db, relayIds[0], status), relayIds[1..])
  {
    var id, rest := relayIds[0], relayIds[1..];
    assert id in relayIds && forall x :: x in rest ==> x in relayIds;
    assert Accounted(owner, db, rest);
    hide StatusUpdated, PendingOrRead;
    StatusAccounted(owner, db, rest, id, status);
  }

  lemma AckKeeps(m: Mail, status: Status, now: Msecs)
    requires MailInv(m, now) && m.trace.answered < |StoreTags(m.out)| && status != MsgRead
    ensures Advances(m, Acked(m, status), now, false)
  {
    hide Correlated, StoreTags, Ids, Watermark, Numbered, Conserved, Accounted, Extends, SetStatus, AnyLost;
    AckKeepsCorrelation(m.relayIds, StoreTags(m.out), m.trace.answered, |m.trace.missed|);
    if m.relayIds == [] {
      AdvancesSelf(m, now, now);
    } else {
      StatusKeeps(m.db, m.relayIds[0], status, now);
      AckAccounted(m.trace.owner, m.db, m.relayIds, status);
      assert Increasing(m.relayIds[1..], m.db.nextMessage);
    }
    hide Increasing;
  }

  lemma LossKeeps(m: Mail, now: Msecs)
    requires MailInv(m, now) && m.trace.answered < |StoreTags(m.out)|
    ensures Advances(m, StoreMissed(m), now, false)
  {
    hide Correlated, StoreTags, Ids, Watermark, Numbered, Conserved, Accounted, Extends, AnyLost, Increasing;
    LossKeepsCorrelation(m.relayIds, StoreTags(m.out), m.trace.answered, |m.trace.missed|);
    AdvancesSelf(m, now, now);
  }

  /**
   * The id an acknowledgement settles is the one whose STORE was answered exactly when that STORE
   * carried an id and as many ids wait as unanswered STOREs carry.
   */
  lemma AckSettlesOwnId(m: Mail, now: Msecs)
    requires MailInv(m, now) && m.trace.answered < |StoreTags(m.out)| && m.relayIds != []
    ensures var u := Unanswered(StoreTags(m.out), m.trace.answered);
            u[0] == Some(m.relayIds[0]) <==> u[0].Some? && |m.relayIds| == |Ids(u)|
  {
    var tags, n := StoreTags(m.out), m.trace.answered;
    hide StoreTags, Ids, Numbered, Watermark, Conserved, Accounted;
    IdsSplit(tags, n);
    var u, ids := tags[n..], Ids(tags);
    if u[0].Some? {
      FirstTagged(u);
      assert ids[|ids| - |Ids(u)|] == u[0].value && ids[|ids| - |m.relayIds|] == m.relayIds[0];
    }
  }

  // ── sending ────────────────────────────────────────────────────────────────

  /** An id nothing refers to yet. */
  ghost predicate Unused(m: Mail, id: int) {
    && 0 <= id < m.db.nextMessage && id !in m.relayIds
    && (forall o :: o in m.trace.owner ==> m.trace.owner[o] != id)
    && (forall x :: x in Ids(StoreTags(m.out)) ==> x < id)
    && (forall x :: x in m.relayIds ==> x < id)
  }

  lemma HeldAccounted(owner: map<int, int>, db: Db, relayIds: seq<int>, peer: QString, packet: bytes, id: int)
    requires Accounted(owner, db, relayIds) && Numbered(db) && db.ready
    requires 0 <= id < db.nextMessage && id !in relayIds && forall o :: o in owner ==> owner[o] != id
    ensures Accounted(owner[db.nextOut := id], StatusUpdated(OutEnqueued(db, peer, packet), id, MsgPending), relayIds)
  {
    hide Ordered;
    var next := StatusUpdated(OutEnqueued(db, peer, packet), id, MsgPending);
    assert PendingOrRead(next.messages, id);
    assert forall row :: row in db.outbox ==> row.id < db.nextOut;
    forall row | row in db.outbox ensures PendingOrRead(next.messages, owner[row.id]) {
      assert PendingOrRead(db.messages, owner[row.id]);
    }
  }

  lemma HeldConserved(queued: seq<OutRow>, drained: seq<Drain>, outbox: seq<OutRow>, out: seq<Outbound>, row: OutRow)
    requires Conserved(queued, drained, outbox, out)
    ensures Conserved(queued + [row], drained, outbox + [row], out)
  {
    forall q: QString ensures Blobs(queued + [row], q) == DrainedTo(drained, q) + Blobs(outbox + [row], q) {
      BlobsAppend(queued, row, q);
      BlobsAppend(outbox, row, q);
    }
    hide Blobs, DrainedTo, KeptTo, FlushedTo;
  }

  lemma HeldKeeps(m: Mail, peer: QString, id: int, packet: bytes, now: Msecs)
    requires MailInv(m, now) && Unused(m, id)
    ensures Advances(m, Recorded(m, peer, id, packet, Queued), now, false)
  {
    hide Correlated, StoreTags, Ids, Watermark, Numbered, Conserved, Accounted, Extends, SetStatus, AnyLost;
    OutboxKeeps(m.db, peer, packet);
    StatusKeeps(OutEnqueued(m.db, peer, packet), id, MsgPending, now);
    HeldConserved(m.trace.queued, m.trace.drained, m.db.outbox, m.out, OutRow(m.db.nextOut, peer, packet));
    HeldAccounted(m.trace.owner, m.db, m.relayIds, peer, packet, id);
    hide Increasing, Unused;
  }

  lemma OwnedKeepsCorrelation(relayIds: seq<int>, out: seq<Outbound>, answered: nat, missed: nat, e: Outbound,
                              bound: int)
    requires Correlated(relayIds, StoreTags(out), answered, missed) && IsStore(e) && e.origin.FromMessage?
    requires Increasing(Ids(StoreTags(out)), bound) && 0 <= e.origin.id < bound
    requires forall x :: x in Ids(StoreTags(out)) ==> x < e.origin.id
    ensures Correlated(relayIds + [e.origin.id], StoreTags(out + [e]), answered, missed)
    ensures Increasing(Ids(StoreTags(out + [e])), bound)
  {
    hide StoreTags, Ids, Suffix, Increasing;
    TagsAppend(out, e);
    var tags, tag := StoreTags(out), Some(e.origin.id);
    var u := tags[answered..];
    IdsAppend(tags, tag);
    IdsAppend(u, tag);
    assert (tags + [tag])[answered..] == u + [tag];
    assert AllOwned(tags + [tag]) ==> AllOwned(tags) by { assert (tags + [tag])[..|tags|] == tags; }
    SuffixAppend(relayIds, Ids(tags), e.origin.id);
    IncreasingAppend(Ids(tags), e.origin.id, bound);
  }

  lemma LongerAccounted(owner: map<int, int>, db: Db, relayIds: seq<int>, id: int)
    requires Accounted(owner, db, relayIds) && forall o :: o in owner ==> owner[o] != id
    ensures Accounted(owner, db, relayIds + [id])
  {
    hide PendingOrRead;
  }

  lemma RelayedKeeps(m: Mail, peer: QString, id: int, packet: bytes, e: Outbound, now: Msecs)
    requires MailInv(m, now) && Unused(m, id) && IsStore(e) && e.origin == FromMessage(id)
    ensures Advances(m, Recorded(Logged(m, e), peer, id, packet, Relayed), now, false)
  {
    hide Correlated, StoreTags, Ids, Watermark, Numbered, Conserved, Accounted, Extends, SetStatus, AnyLost;
    OwnedKeepsCorrelation(m.relayIds, m.out, m.trace.answered, |m.trace.missed|, e, m.db.nextMessage);
    StatusKeeps(m.db, id, MsgPending, now);
    UnflushedConserved(m.trace.queued, m.trace.drained, m.db.outbox, m.out, e);
    LongerAccounted(m.trace.owner, m.db, m.relayIds, id);
    StatusAccounted(m.trace.owner, m.db, m.relayIds + [id], id, MsgPending);
    IncreasingAppend(m.relayIds, id, m.db.nextMessage);
    hide Increasing, Unused;
  }

  lemma UnusedAccounted(owner: map<int, int>, db: Db, relayIds: seq<int>, id: int, status: Status)
    requires Accounted(owner, db, relayIds) && forall o :: o in owner ==> owner[o] != id
    ensures Accounted(owner, StatusUpdated(db, id, status), relayIds)
  {
    hide PendingOrRead, StatusUpdated;
    StatusAccounted(owner, db, relayIds, id, status);
  }

  lemma DirectKeeps(m: Mail, peer: QString, id: int, packet: bytes, e: Outbound, now: Msecs)
    requires MailInv(m, now) && Unused(m, id) && e.ToPeers? && e.origin == FromMessage(id)
    ensures Advances(m, Recorded(Logged(m, e), peer, id, packet, Direct), now, false)
  {
    hide Correlated, StoreTags, Ids, Watermark, Numbered, Conserved, Accounted, Extends, SetStatus, AnyLost;
    TagsAppend(m.out, e);
    StatusKeeps(m.db, id, MsgSent, now);
    UnflushedConserved(m.trace.queued, m.trace.drained, m.db.outbox, m.out, e);
    UnusedAccounted(m.trace.owner, m.db, m.relayIds, id, MsgSent);
    hide Increasing, Unused;
  }

  /** A freshly saved message's id is unused. */
  lemma SavedIsUnused(m: Mail, peer: QString, chat: Chat, at: Msecs, now: Msecs)
    requires MailInv(m, now)
    ensures Unused(m.(db := Saved(m.db, peer, chat, at, true)), m.db.nextMessage)
  {
    hide Correlated, StoreTags, Ids, Watermark, Numbered, Conserved;
  }

  // ── draining ───────────────────────────────────────────────────────────────

  lemma {:induction false} EntriesKeepCorrelation(relayIds: seq<int>, out: seq<Outbound>, answered: nat,
                                                  missed: nat, entries: seq<Outbound>)
    requires Correlated(relayIds, StoreTags(out), answered, missed)
    requires forall i :: 0 <= i < |entries| ==> !entries[i].origin.FromMessage?
    ensures Correlated(relayIds, StoreTags(out + entries), answered, missed)
    ensures Ids(StoreTags(out + entries)) == Ids(StoreTags(out))
  {
    hide Correlated, StoreTags, Ids;
    if entries == [] {
      assert out + entries == out;
    } else {
      var front, last := entries[..|entries| - 1], entries[|entries| - 1];
      EntriesKeepCorrelation(relayIds, out, answered, missed, front);
      UnownedKeepsCorrelation(relayIds, out + front, answered, missed, last);
      assert out + entries == (out + front) + [last];
    }
  }

  lemma {:induction false} EntriesWaitForNone(out: seq<Outbound>, answered: nat, entries: seq<Outbound>)
    requires answered <= |StoreTags(out)| && forall i :: 0 <= i < |entries| ==> !entries[i].origin.FromMessage?
    ensures answered <= |StoreTags(out + entries)|
    ensures Ids(Unanswered(StoreTags(out + entries), answered)) == Ids(Unanswered(StoreTags(out), answered))
  {
    hide StoreTags, Ids, Unanswered;
    if entries == [] {
      assert out + entries == out;
    } else {
      var front, last := entries[..|entries| - 1], entries[|entries| - 1];
      EntriesWaitForNone(out, answered, front);
      UnownedWaitsForNone(out + front, answered, last);
      TagsAppend(out + front, last);
      Snoc<Outbound>(out, entries);
    }
  }

  lemma {:induction false} EntriesFlushed(out: seq<Outbound>, entries: seq<Outbound>, peer: QString,
                                          packets: seq<bytes>, q: QString)
    requires Carries(entries, peer, packets)
    ensures FlushedTo(out + entries, q) == if q == peer then FlushedTo(out, q) + packets else FlushedTo(out, q)
  {
    hide FlushedTo;
    if entries == [] {
      assert out + entries == out;
    } else {
      var n := |entries| - 1;
      EntriesFlushed(out, entries[..n], peer, packets[..n], q);
      FlushedAppend(out + entries[..n], entries[n], q);
      Snoc<Outbound>(out, entries);
      Snoc<bytes>(FlushedTo(out, q), packets);
    }
  }

  lemma Snoc<T>(a: seq<T>, b: seq<T>)
    requires b != []
    ensures a + b == (a + b[..|b| - 1]) + [b[|b| - 1]]
  {
  }

  lemma DrainsAppend(drained: seq<Drain>, d: Drain, peer: QString)
    ensures DrainedTo(drained + [d], peer)
         == if d.peer == peer then DrainedTo(drained, peer) + [d.packet] else DrainedTo(drained, peer)
    ensures KeptTo(drained + [d], peer)
         == if d.peer == peer && !d.lost then KeptTo(drained, peer) + [d.packet] else KeptTo(drained, peer)
  {
    assert (drained + [d])[..|drained|] == drained;
    assert DrainedTo(drained, peer) + [] == DrainedTo(drained, peer);
    assert KeptTo(drained, peer) + [] == KeptTo(drained, peer);
  }

  lemma {:induction false} DrainsLogged(drained: seq<Drain>, peer: QString, packets: seq<bytes>, lost: bool, q: QString)
    ensures var after := drained + Drains(peer, packets, lost);
            && DrainedTo(after, q) == (if q == peer then DrainedTo(drained, q) + packets else DrainedTo(drained, q))
            && KeptTo(after, q) == (if q == peer && !lost then KeptTo(drained, q) + packets else KeptTo(drained, q))
  {
    hide DrainedTo, KeptTo;
    if packets == [] {
      assert drained + Drains(peer, packets, lost) == drained;
    } else {
      var n := |packets| - 1;
      DrainsLogged(drained, peer, packets[..n], lost, q);
      var d, before := Drain(peer, packets[n], lost), drained + Drains(peer, packets[..n], lost);
      DrainsAppend(before, d, q);
      DrainsSnoc(drained, peer, packets, lost);
      assert packets == packets[..n] + [packets[n]];
      hide Drains;
    }
  }

  lemma DrainsSnoc(drained: seq<Drain>, peer: QString, packets: seq<bytes>, lost: bool)
    requires packets != []
    ensures drained + Drains(peer, packets, lost)
         == drained + Drains(peer, packets[..|packets| - 1], lost) + [Drain(peer, packets[|packets| - 1], lost)]
  {
  }

  lemma LossesAfter(drained: seq<Drain>, peer: QString, packets: seq<bytes>, lost: bool)
    ensures AnyLost(drained + Drains(peer, packets, lost)) <==> AnyLost(drained) || (lost && packets != [])
  {
    var after := drained + Drains(peer, packets, lost);
    if AnyLost(drained) {
      var i :| 0 <= i < |drained| && drained[i].lost;
      assert after[i].lost;
    }
    if lost && packets != [] { assert after[|drained|].lost; }
  }

  lemma DrainConserved(t: Trace, db: Db, out: seq<Outbound>, peer: QString, entries: seq<Outbound>, lost: bool)
    requires Conserved(t.queued, t.drained, db.outbox, out) && db.ready
    requires if lost then entries == [] else Carries(entries, peer, Peeked(db, peer))
    ensures Conserved(t.queued, t.drained + Drains(peer, Peeked(db, peer), lost), Confirmed(db, peer).outbox,
                      out + entries)
  {
    var packets := Peeked(db, peer);
    var after := t.drained + Drains(peer, packets, lost);
    forall q: QString
      ensures Blobs(t.queued, q) == DrainedTo(after, q) + Blobs(Confirmed(db, peer).outbox, q)
      ensures KeptTo(after, q) == FlushedTo(out + entries, q)
    {
      hide Blobs, Without, DrainedTo, KeptTo, FlushedTo;
      WithoutBlobs(db.outbox, peer, q);
      DrainsLogged(t.drained, peer, packets, lost, q);
      if lost {
        assert out + entries == out;
      } else {
        EntriesFlushed(out, entries, peer, packets, q);
      }
    }
    hide Blobs, Without, DrainedTo, KeptTo, FlushedTo, Drains;
  }

  lemma DrainAccounted(owner: map<int, int>, db: Db, relayIds: seq<int>, peer: QString)
    requires Accounted(owner, db, relayIds)
    ensures Accounted(owner, Confirmed(db, peer), relayIds)
  {
    hide PendingOrRead;
    var kept := Without(db.outbox, peer);
    forall row | row in kept ensures row in db.outbox {
      var i :| 0 <= i < |kept| && kept[i] == row;
    }
  }

  /** Draining one peer's outbox keeps everything; a loss happens just when packets are discarded. */
  lemma DrainKeeps(m: Mail, peer: QString, entries: seq<Outbound>, lost: bool, now: Msecs)
    requires MailInv(m, now)
    requires if lost then entries == [] else Carries(entries, peer, Peeked(m.db, peer))
    ensures var n := Drained(m, peer, entries, lost);
            Advances(m, n, now, lost && Peeked(m.db, peer) != []) && Peeked(n.db, peer) == []
  {
    hide Correlated, StoreTags, Ids, Watermark, Numbered, Conserved, Accounted, Extends, AnyLost, Increasing, Without,
      Drains, Blobs;
    EntriesKeepCorrelation(m.relayIds, m.out, m.trace.answered, |m.trace.missed|, entries);
    DrainConserved(m.trace, m.db, m.out, peer, entries, lost);
    DrainAccounted(m.trace.owner, m.db, m.relayIds, peer);
    OutboxKeeps(m.db, peer, []);
    LossesAfter(m.trace.drained, peer, Peeked(m.db, peer), lost);
    WithoutBlobs(m.db.outbox, peer, peer);
    AdvancesSelf(m, now, now);
  }

  // ── every move keeps the invariants ────────────────────────────────────────

  ghost function Kept(): Relation {
    (m: Mail, n: Mail, now: Msecs, discards: bool) => Advances(m, n, now, discards)
  }

  /** The states `Kept` is about are those where the invariants hold. */
  lemma KeptStates(m: Mail, now: Msecs)
    ensures Holds(Kept(), m, now) <==> MailInv(m, now)
  {
    hide MailInv;
    assert Holds(Kept(), m, now) <==> Advances(m, m, now, false);
  }

  lemma KeepsSendHeld(m: Mail, peer: QString, chat: Chat, now: Msecs)
    requires MailInv(m, now)
    ensures Advances(m, SentHeld(m, peer, chat, now), now, false)
  {
    hide Correlated, StoreTags, Ids, Watermark, Numbered, Conserved, Accounted, Extends, AnyLost, Increasing, Recorded,
      Saved, Unused;
    var m1 := m.(db := Saved(m.db, peer, chat, now, true));
    SaveKeeps(m, peer, chat, now, true, now);
    SavedIsUnused(m, peer, chat, now, now);
    HeldKeeps(m1, peer, SavedId(m.db), MessageBytes(chat, now), now);
    AdvancesTransitive(m, m1, SentHeld(m, peer, chat, now), now, now, false, false);
  }

  lemma KeepsSendNow(m: Mail, peer: QString, chat: Chat, e: Outbound, now: Msecs)
    requires MailInv(m, now) && Carrier(m, e)
    ensures Advances(m, SentNow(m, peer, chat, e, now), now, false)
  {
    hide Correlated, StoreTags, Ids, Watermark, Numbered, Conserved, Accounted, Extends, AnyLost, Increasing, Recorded,
      Saved, Unused;
    var m1 := m.(db := Saved(m.db, peer, chat, now, true));
    SaveKeeps(m, peer, chat, now, true, now);
    SavedIsUnused(m, peer, chat, now, now);
    if e.ToServer? {
      RelayedKeeps(m1, peer, SavedId(m.db), MessageBytes(chat, now), e, now);
    } else {
      DirectKeeps(m1, peer, SavedId(m.db), MessageBytes(chat, now), e, now);
    }
    AdvancesTransitive(m, m1, SentNow(m, peer, chat, e, now), now, now, false, false);
  }

  lemma KeepsLater(m: Mail, t: Msecs, now: Msecs)
    ensures LaterLaw(Kept(), m, t, now)
  {
    hide MailInv, Extends, AnyLost;
    KeptStates(m, t);
    KeptStates(m, now);
    if MailInv(m, t) && t <= now { AdvancesSelf(m, t, now); }
  }

  lemma KeepsEnd(m: Mail, n: Mail, now: Msecs, discards: bool)
    ensures EndLaw(Kept(), m, n, now, discards)
  {
    hide MailInv, Extends, AnyLost;
    KeptStates(n, now);
  }

  lemma KeepsChain(a: Mail, b: Mail, c: Mail, t: Msecs, now: Msecs, before: bool, discards: bool)
    ensures ChainLaw(Kept(), a, b, c, t, now, before, discards)
  {
    hide Advances;
    if Advances(a, b, t, before) && Advances(b, c, now, discards) {
      AdvancesTransitive(a, b, c, t, now, before, discards);
    }
  }

  lemma KeepsLog(m: Mail, e: Outbound, now: Msecs)
    ensures LogLaw(Kept(), m, e, now)
  {
    hide Advances, MailInv, Logged;
    KeptStates(m, now);
    if MailInv(m, now) && e.origin.Unowned? { EmitKeeps(m, e, now); }
  }

  lemma KeepsStore(m: Mail, chat: Chat, at: Msecs, r: Receipt, now: Msecs)
    ensures StoreLaw(Kept(), m, chat, at, r, now)
  {
    hide Advances, MailInv, Saved, MarkedRead;
    KeptStates(m, now);
    if MailInv(m, now) {
      SaveKeeps(m, chat.sender, chat, at, false, now);
      MarkKeeps(m, r.sender, r.upTo, now);
    }
  }

  lemma KeepsSend(m: Mail, peer: QString, chat: Chat, e: Outbound, now: Msecs)
    ensures SendLaw(Kept(), m, peer, chat, e, now)
  {
    hide Advances, MailInv, SentHeld, SentNow, Carrier;
    KeptStates(m, now);
    if MailInv(m, now) {
      KeepsSendHeld(m, peer, chat, now);
      if Carrier(m, e) { KeepsSendNow(m, peer, chat, e, now); }
    }
  }

  lemma KeepsAck(m: Mail, status: Status, now: Msecs)
    ensures AckLaw(Kept(), m, status, now)
  {
    hide Advances, MailInv, Acked, StoreTags;
    KeptStates(m, now);
    if MailInv(m, now) && m.trace.answered < |StoreTags(m.out)| && status != MsgRead { AckKeeps(m, status, now); }
  }

  lemma KeepsLoss(m: Mail, now: Msecs)
    ensures LossLaw(Kept(), m, now)
  {
    hide Advances, MailInv, StoreMissed, StoreTags;
    KeptStates(m, now);
    if MailInv(m, now) && m.trace.answered < |StoreTags(m.out)| { LossKeeps(m, now); }
  }

  lemma KeepsDrain(m: Mail, peer: QString, entries: seq<Outbound>, lost: bool, now: Msecs)
    ensures DrainLaw(Kept(), m, peer, entries, lost, now)
  {
    hide Advances, MailInv, Drained, Carries, Peeked;
    KeptStates(m, now);
    if MailInv(m, now) && (if lost then entries == [] else Carries(entries, peer, Peeked(m.db, peer))) {
      DrainKeeps(m, peer, entries, lost, now);
    }
  }

  /** Every move, and so every chain of moves, keeps the mail invariants. */
  lemma KeptIsClosed()
    ensures MoveClosed(Kept()) && AckClosed(Kept())
  {
    hide LaterLaw, EndLaw, ChainLaw, LogLaw, StoreLaw, SendLaw, AckLaw, LossLaw, DrainLaw, Kept;
    forall m, t: Msecs, now: Msecs ensures LaterLaw(Kept(), m, t, now) { KeepsLater(m, t, now); }
    forall m, n, now: Msecs, discards ensures EndLaw(Kept(), m, n, now, discards) { KeepsEnd(m, n, now, discards); }
    forall a, b, c, t: Msecs, now: Msecs, before, discards ensures ChainLaw(Kept(), a, b, c, t, now, before, discards) {
      KeepsChain(a, b, c, t, now, before, discards);
    }
    forall m, e, now: Msecs ensures LogLaw(Kept(), m, e, now) { KeepsLog(m, e, now); }
    forall m, chat, at: Msecs, r, now: Msecs ensures StoreLaw(Kept(), m, chat, at, r, now) {
      KeepsStore(m, chat, at, r, now);
    }
    forall m, peer: QString, chat, e, now: Msecs ensures SendLaw(Kept(), m, peer, chat, e, now) {
      KeepsSend(m, peer, chat, e, now);
    }
    forall m, status, now: Msecs ensures AckLaw(Kept(), m, status, now) { KeepsAck(m, status, now); }
    forall m, now: Msecs ensures LossLaw(Kept(), m, now) { KeepsLoss(m, now); }
    forall m, peer: QString, entries, lost, now: Msecs ensures DrainLaw(Kept(), m, peer, entries, lost, now) {
      KeepsDrain(m, peer, entries, lost, now);
    }
  }
}
