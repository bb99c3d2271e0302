/** The local store: the messages table and the outbox, as sequences of rows in id order. */
module LocalDb {
  import opened Bytes
  import opened DataStream

  datatype Status = MsgPending | MsgSent | MsgFailed | MsgRead

  datatype Row = Row(
    id: int, peer: QString, sender: QString, text: QString, timestamp: int64, outgoing: bool, status: Status,
    replyId: int32, replyText: QString, replySender: QString, isRead: bool)

  datatype OutRow = OutRow(id: int, peer: QString, blob: bytes)

  /** `nextMessage` and `nextOut` are the AUTOINCREMENT counters. */
  datatype Db = Db(ready: bool, messages: seq<Row>, outbox: seq<OutRow>, nextMessage: nat, nextOut: nat)

  // ── statements ─────────────────────────────────────────────────────────────

  /** A row as INSERT leaves it: status Sent, not read. */
  function NewRow(id: int, peer: QString, chat: Chat, at: Msecs, outgoing: bool): Row {
    Row(id, peer, chat.sender, chat.text, Secs(at), outgoing, MsgSent, chat.replyId, chat.replyText, chat.replySender,
        false)
  }

  function SavedId(db: Db): int {
    if db.ready then db.nextMessage else -1
  }

  function Saved(db: Db, peer: QString, chat: Chat, at: Msecs, outgoing: bool): Db {
    if !db.ready then db
    else db.(messages := db.messages + [NewRow(db.nextMessage, peer, chat, at, outgoing)],
             nextMessage := db.nextMessage + 1)
  }

  function SetStatus(rows: seq<Row>, id: int, status: Status): (r: seq<Row>)
    ensures |r| == |rows|
  {
    seq(|rows|, i requires 0 <= i < |rows| => if rows[i].id == id then rows[i].(status := status) else rows[i])
  }

  function StatusUpdated(db: Db, id: int, status: Status): Db {
    if !db.ready || id < 0 then db else db.(messages := SetStatus(db.messages, id, status))
  }

  predicate Covered(row: Row, peer: QString, upTo: int64) {
    row.peer == peer && row.outgoing && row.timestamp <= upTo && row.status != MsgRead
  }

  function SetRead(rows: seq<Row>, peer: QString, upTo: int64): (r: seq<Row>)
    ensures |r| == |rows|
  {
    seq(|rows|, i requires 0 <= i < |rows| =>
      if Covered(rows[i], peer, upTo) then rows[i].(status := MsgRead, isRead := true) else rows[i])
  }

  function MarkedRead(db: Db, peer: QString, upTo: int64): Db {
    if !db.ready then db else db.(messages := SetRead(db.messages, peer, upTo))
  }

  function OutEnqueued(db: Db, peer: QString, blob: bytes): Db {
    if !db.ready then db
    else db.(outbox := db.outbox + [OutRow(db.nextOut, peer, blob)], nextOut := db.nextOut + 1)
  }

  /** The blobs waiting for one peer, oldest first. */
  function Blobs(rows: seq<OutRow>, peer: QString): seq<bytes> {
    if rows == [] then []
    else
      var last := rows[|rows| - 1];
      Blobs(rows[..|rows| - 1], peer) + if last.peer == peer then [last.blob] else []
  }

  function Peeked(db: Db, peer: QString): seq<bytes> {
    if db.ready then Blobs(db.outbox, peer) else []
  }

  predicate Waiting(rows: seq<OutRow>, peer: QString) {
    exists i :: 0 <= i < |rows| && rows[i].peer == peer
  }

  function Without(rows: seq<OutRow>, peer: QString): (r: seq<OutRow>)
    ensures forall i :: 0 <= i < |r| ==> r[i] in rows && r[i].peer != peer
  {
    if rows == [] then []
    else
      var last := rows[|rows| - 1];
      assert forall row :: row in rows[..|rows| - 1] ==> row in rows;
      Without(rows[..|rows| - 1], peer) + if last.peer == peer then [] else [last]
  }

  function Confirmed(db: Db, peer: QString): Db {
    if !db.ready then db else db.(outbox := Without(db.outbox, peer))
  }

  /** Removing one peer's rows empties that peer's queue and leaves every other one as it was. */
  lemma {:induction false} WithoutBlobs(rows: seq<OutRow>, peer: QString, other: QString)
    ensures Blobs(Without(rows, peer), other) == if other == peer then [] else Blobs(rows, other)
  {
    if rows != [] {
      var front, last := rows[..|rows| - 1], rows[|rows| - 1];
      WithoutBlobs(front, peer, other);
      if last.peer != peer {
        BlobsAppend(Without(front, peer), last, other);
      } else {
        assert Without(rows, peer) == Without(front, peer);
      }
    }
  }

  /** Confirming a peer for whom nothing waits changes nothing. */
  lemma {:induction false} WithoutNobody(rows: seq<OutRow>, peer: QString)
    requires Blobs(rows, peer) == []
    ensures Without(rows, peer) == rows
  {
    hide Without, Blobs;
    if rows == [] {
      assert Without(rows, peer) == [] by { NothingWithout(peer); }
    } else {
      var front, last := rows[..|rows| - 1], rows[|rows| - 1];
      assert rows == front + [last];
      BlobsAppend(front, last, peer);
      WithoutAppend(front, last, peer);
      WithoutNobody(front, peer);
    }
  }

  lemma NothingWithout(peer: QString)
    ensures Without([], peer) == []
  {
  }

  lemma WithoutAppend(rows: seq<OutRow>, row: OutRow, peer: QString)
    ensures Without(rows + [row], peer)
         == if row.peer == peer then Without(rows, peer) else Without(rows, peer) + [row]
  {
    assert (rows + [row])[..|rows|] == rows;
    assert Without(rows, peer) + [] == Without(rows, peer);
  }

  lemma {:induction false} BlobsWaiting(rows: seq<OutRow>, peer: QString)
    ensures Blobs(rows, peer) != [] <==> Waiting(rows, peer)
  {
    if rows != [] {
      var front, last := rows[..|rows| - 1], rows[|rows| - 1];
      BlobsWaiting(front, peer);
      if Waiting(front, peer) {
        var i :| 0 <= i < |front| && front[i].peer == peer;
        assert rows[i].peer == peer;
      }
      assert rows[|rows| - 1] == last;
    }
  }

  lemma BlobsAppend(rows: seq<OutRow>, row: OutRow, peer: QString)
    ensures Blobs(rows + [row], peer) == Blobs(rows, peer) + if row.peer == peer then [row.blob] else []
  {
    assert (rows + [row])[..|rows|] == rows;
  }

  predicate Ordered(rows: seq<OutRow>) {
    forall i, j :: 0 <= i < j < |rows| ==> rows[i].id < rows[j].id
  }

  lemma {:induction false} WithoutOrdered(rows: seq<OutRow>, peer: QString)
    requires Ordered(rows)
    ensures Ordered(Without(rows, peer))
  {
    if rows != [] {
      var front, last := rows[..|rows| - 1], rows[|rows| - 1];
      WithoutOrdered(front, peer);
      var kept := Without(front, peer);
      assert forall i :: 0 <= i < |kept| ==> kept[i] in front && kept[i].id < last.id;
    }
  }

  // ── ids and the read watermark ─────────────────────────────────────────────

  /** Ids grow with position and stay below the counter. */
  ghost predicate Numbered(db: Db) {
    && (forall i, j :: 0 <= i < j < |db.messages| ==> db.messages[i].id < db.messages[j].id)
    && (forall i :: 0 <= i < |db.messages| ==> 0 <= db.messages[i].id < db.nextMessage)
    && Ordered(db.outbox)
    && (forall i :: 0 <= i < |db.outbox| ==> 0 <= db.outbox[i].id < db.nextOut)
  }

  predicate To(row: Row, peer: QString) {
    row.outgoing && row.peer == peer
  }

  /**
   * The watermark at clock `now`: outgoing rows are in time order, the read ones to each peer are a
   * prefix, and a row with status Read is read.
   */
  ghost predicate Watermark(rows: seq<Row>, now: Msecs) {
    && (forall i, j :: 0 <= i < j < |rows| && rows[i].outgoing && To(rows[j], rows[i].peer)
          ==> rows[i].timestamp <= rows[j].timestamp && (rows[j].isRead ==> rows[i].isRead))
    && (forall i :: 0 <= i < |rows| && rows[i].outgoing ==> rows[i].timestamp <= Secs(now))
    && (forall i :: 0 <= i < |rows| && rows[i].outgoing && rows[i].status == MsgRead ==> rows[i].isRead)
  }

  /** Nothing but status and the read mark ever changes in a row, and the mark is never cleared. */
  predicate Succeeds(row: Row, later: Row) {
    row.(status := later.status, isRead := later.isRead) == later && (row.isRead ==> later.isRead)
  }

  ghost predicate Extends(rows: seq<Row>, later: seq<Row>) {
    |rows| <= |later| && forall i :: 0 <= i < |rows| ==> Succeeds(rows[i], later[i])
  }

  lemma ExtendsTransitive(a: seq<Row>, b: seq<Row>, c: seq<Row>)
    requires Extends(a, b) && Extends(b, c)
    ensures Extends(a, c)
  {
    forall i | 0 <= i < |a| ensures Succeeds(a[i], c[i]) {
      assert Succeeds(a[i], b[i]) && Succeeds(b[i], c[i]);
    }
  }

  lemma SavedNumbered(db: Db, peer: QString, chat: Chat, at: Msecs, outgoing: bool)
    requires Numbered(db)
    ensures Numbered(Saved(db, peer, chat, at, outgoing))
  {
    hide Ordered, Secs;
  }

  lemma SavedExtends(db: Db, peer: QString, chat: Chat, at: Msecs, outgoing: bool)
    ensures Extends(db.messages, Saved(db, peer, chat, at, outgoing).messages)
  {
    hide NewRow;
  }

  /** A row stamped no earlier than the clock keeps the watermark, and so does any incoming one. */
  lemma WatermarkAppend(rows: seq<Row>, row: Row, now: Msecs, later: Msecs)
    requires Watermark(rows, now) && Secs(now) <= Secs(later) && !row.isRead && row.status != MsgRead
    requires row.outgoing ==> Secs(now) <= row.timestamp <= Secs(later)
    ensures Watermark(rows + [row], later)
  {
    hide Secs;
  }

  lemma SavedKeeps(db: Db, peer: QString, chat: Chat, at: Msecs, outgoing: bool, now: Msecs, later: Msecs)
    requires Numbered(db) && Watermark(db.messages, now)
    requires now <= later && (outgoing ==> now <= at <= later)
    ensures var next := Saved(db, peer, chat, at, outgoing);
            Numbered(next) && Extends(db.messages, next.messages) && Watermark(next.messages, later)
  {
    hide Numbered, Extends, Watermark, Secs;
    SavedNumbered(db, peer, chat, at, outgoing);
    SavedExtends(db, peer, chat, at, outgoing);
    SecsMonotone(now, later);
    if outgoing {
      SecsMonotone(now, at);
      SecsMonotone(at, later);
    }
    var row := NewRow(db.nextMessage, peer, chat, at, outgoing);
    WatermarkAppend(db.messages, row, now, later);
    if !db.ready { WatermarkLater(db.messages, now, later); }
  }

  lemma WatermarkLater(rows: seq<Row>, now: Msecs, later: Msecs)
    requires Watermark(rows, now) && Secs(now) <= Secs(later)
    ensures Watermark(rows, later)
  {
    hide Secs;
  }

  lemma StatusRow(rows: seq<Row>, id: int, status: Status, i: nat)
    requires i < |rows|
    ensures SetStatus(rows, id, status)[i] == rows[i].(status := if rows[i].id == id then status else rows[i].status)
  {
  }

  lemma SetStatusWatermark(rows: seq<Row>, id: int, status: Status, now: Msecs)
    requires Watermark(rows, now) && status != MsgRead
    ensures Watermark(SetStatus(rows, id, status), now) && Extends(rows, SetStatus(rows, id, status))
  {
    hide Secs;
    forall i | 0 <= i < |rows|
      ensures SetStatus(rows, id, status)[i] == rows[i].(status := if rows[i].id == id then status else rows[i].status)
    {
      StatusRow(rows, id, status, i);
    }
    hide SetStatus;
  }

  lemma SetStatusNumbered(db: Db, id: int, status: Status)
    requires Numbered(db)
    ensures Numbered(StatusUpdated(db, id, status))
  {
    hide Ordered;
  }

  lemma StatusKeeps(db: Db, id: int, status: Status, now: Msecs)
    requires Numbered(db) && Watermark(db.messages, now) && status != MsgRead
    ensures var next := StatusUpdated(db, id, status);
            Numbered(next) && Watermark(next.messages, now) && Extends(db.messages, next.messages)
  {
    hide Numbered, Watermark, SetStatus;
    SetStatusNumbered(db, id, status);
    SetStatusWatermark(db.messages, id, status, now);
  }

  ghost predicate ReadUpTo(rows: seq<Row>, peer: QString, upTo: int64) {
    forall i :: 0 <= i < |rows| && To(rows[i], peer) && rows[i].timestamp <= upTo ==> rows[i].isRead
  }

  lemma SetReadNumbered(db: Db, peer: QString, upTo: int64)
    requires Numbered(db)
    ensures Numbered(MarkedRead(db, peer, upTo))
  {
    hide Ordered, Covered;
  }

  lemma SetReadWatermark(rows: seq<Row>, peer: QString, upTo: int64, now: Msecs)
    requires Watermark(rows, now)
    ensures var next := SetRead(rows, peer, upTo);
            Watermark(next, now) && Extends(rows, next) && ReadUpTo(next, peer, upTo)
  {
    hide Secs;
  }

  /** A receipt marks every outgoing row up to its time, so the read rows stay a prefix. */
  lemma ReadKeeps(db: Db, peer: QString, upTo: int64, now: Msecs)
    requires Numbered(db) && Watermark(db.messages, now)
    ensures var next := MarkedRead(db, peer, upTo);
            && Numbered(next) && Watermark(next.messages, now) && Extends(db.messages, next.messages)
            && (db.ready ==> ReadUpTo(next.messages, peer, upTo))
  {
    hide Numbered, Watermark, SetRead, ReadUpTo;
    SetReadNumbered(db, peer, upTo);
    SetReadWatermark(db.messages, peer, upTo, now);
  }

  lemma OutboxKeeps(db: Db, peer: QString, blob: bytes)
    requires Numbered(db)
    ensures Numbered(OutEnqueued(db, peer, blob)) && Numbered(Confirmed(db, peer))
  {
    WithoutOrdered(db.outbox, peer);
    var kept := Without(db.outbox, peer);
    assert forall i :: 0 <= i < |kept| ==> kept[i] in db.outbox;
  }

  // ── the object ─────────────────────────────────────────────────────────────

  class LocalDb {
    var ready: bool
    var messages: seq<Row>
    var outbox: seq<OutRow>
    var nextMessage: nat
    var nextOut: nat

    ghost function Abs(): Db
      reads this
    {
      Db(ready, messages, outbox, nextMessage, nextOut)
    }

    constructor (ready: bool)
      ensures Abs() == Db(ready, [], [], 1, 1)
    {
      this.ready, messages, outbox, nextMessage, nextOut := ready, [], [], 1, 1;
    }

    method SaveMessage(peer: QString, chat: Chat, at: Msecs, outgoing: bool) returns (id: int)
      modifies this
      ensures Abs() == Saved(old(Abs()), peer, chat, at, outgoing) && id == SavedId(old(Abs()))
    {
      if !ready { return -1; }
      id := nextMessage;
      messages := messages + [NewRow(id, peer, chat, at, outgoing)];
      nextMessage := nextMessage + 1;
    }

    method UpdateStatus(id: int, status: Status) returns (ok: bool)
      modifies this
      ensures Abs() == StatusUpdated(old(Abs()), id, status) && ok == (ready && id >= 0)
    {
      if !ready || id < 0 { return false; }
      messages := SetStatus(messages, id, status);
      return true;
    }

    method MarkReadUpTo(peer: QString, upTo: int64) returns (ok: bool)
      modifies this
      ensures Abs() == MarkedRead(old(Abs()), peer, upTo) && ok == ready
    {
      if !ready { return false; }
      messages := SetRead(messages, peer, upTo);
      return true;
    }

    method EnqueueMessage(peer: QString, blob: bytes) returns (ok: bool)
      modifies this
      ensures Abs() == OutEnqueued(old(Abs()), peer, blob) && ok == ready
    {
      if !ready { return false; }
      outbox := outbox + [OutRow(nextOut, peer, blob)];
      nextOut := nextOut + 1;
      return true;
    }

    /** The query loop over the peer's rows in id order. */
    method PeekOutbox(peer: QString) returns (r: seq<bytes>)
      ensures r == Peeked(Abs(), peer)
    {
      r := [];
      if !ready { return; }
      var i := 0;
      while i < |outbox|
        invariant 0 <= i <= |outbox| && r == Blobs(outbox[..i], peer)
      {
        BlobsAppend(outbox[..i], outbox[i], peer);
        assert outbox[..i + 1] == outbox[..i] + [outbox[i]];
        if outbox[i].peer == peer { r := r + [outbox[i].blob]; }
        i := i + 1;
      }
      assert outbox[..i] == outbox;
    }

    method ConfirmOutbox(peer: QString) returns (ok: bool)
      modifies this
      ensures Abs() == Confirmed(old(Abs()), peer) && ok == ready
    {
      if !ready { return false; }
      outbox := Without(outbox, peer);
      return true;
    }

    method HasPending(peer: QString) returns (some: bool)
      ensures some == (Peeked(Abs(), peer) != [])
    {
      BlobsWaiting(outbox, peer);
      return ready && exists i :: 0 <= i < |outbox| && outbox[i].peer == peer;
    }
  }
}
