/**
 * Peer connections. A connection is a never-reused number; sockets opening, closing and delivering
 * data are inputs. `claims` records every handshake and `owners` whom a connection was dialled to
 * or confirmed for, for stating where an authentication came from and whom data reaches.
 */
module Network {
  import opened Bytes
  import opened Platform

  datatype Claim = Claim(conn: nat, nick: QString, key: bytes)

  datatype Net = Net(
    connections: seq<nat>, incoming: set<nat>, connected: set<nat>, authenticated: set<nat>,
    pending: map<QString, nat>, claimed: map<QString, bytes>, attempts: map<nat, QString>,
    skipP2p: bool, wire: seq<(nat, bytes)>, nextConn: nat, claims: set<Claim>,
    owners: map<nat, QString>)

  const NO_CONNECTIONS := Net([], {}, {}, {}, map[], map[], map[], false, [], 0, {}, map[])

  // ── handshakes ─────────────────────────────────────────────────────────────

  predicate IsSpace(b: byte) {
    b == 32 || 9 <= b <= 13
  }

  function TrimLeft(s: bytes): bytes {
    if s != [] && IsSpace(s[0]) then TrimLeft(s[1..]) else s
  }

  function TrimRight(s: bytes): bytes {
    if s != [] && IsSpace(s[|s| - 1]) then TrimRight(s[..|s| - 1]) else s
  }

  datatype Handshake = Handshake(nick: QString, key: bytes)

  /** `nickname:hexkey`, accepted only with a full-sized key. */
  function ParseHandshake(p: Platform, data: bytes): Option<Handshake> {
    var payload := TrimRight(TrimLeft(data));
    var sep := IndexOf(payload, COLON, 0);
    if sep <= 0 then None
    else
      var nick, key := p.fromUtf8(payload[..sep]), FromHex(payload[sep + 1..]);
      if nick != [] && |key| == KEY_BYTES then Some(Handshake(nick, key)) else None
  }

  function HandshakeBytes(p: Platform, nick: QString, key: bytes): bytes {
    Joined<byte>(p.toUtf8(nick), COLON, ToHex(key))
  }

  lemma NothingToTrim(s: bytes)
    requires s != [] && !IsSpace(s[0]) && !IsSpace(s[|s| - 1])
    ensures TrimRight(TrimLeft(s)) == s
  {
  }

  /** The listening side reads exactly what the dialling side sends. */
  lemma HandshakeRoundTrip(p: Platform, nick: QString, key: bytes)
    requires Utf8Law(p) && WellFormed(nick) && nick != [] && |key| == KEY_BYTES
    requires COLON !in p.toUtf8(nick) && !IsSpace(p.toUtf8(nick)[0])
    ensures ParseHandshake(p, HandshakeBytes(p, nick, key)) == Some(Handshake(nick, key))
  {
    hide Joined, FromHex, ToHex, TrimLeft, TrimRight, IndexOf, WellFormed, IsSpace;
    var name, hex := p.toUtf8(nick), ToHex(key);
    NameBack(p, nick);
    HexRoundTrip(key);
    HexIsDense(key);
    FirstSeparator<byte>(name, COLON, hex);
    JoinedEnds(name, hex);
    NothingToTrim(Joined<byte>(name, COLON, hex));
  }

  lemma NameBack(p: Platform, nick: QString)
    requires Utf8Law(p) && WellFormed(nick)
    ensures p.fromUtf8(p.toUtf8(nick)) == nick
  {
  }

  lemma HexIsDense(key: bytes)
    requires key != []
    ensures ToHex(key) != [] && !IsSpace(ToHex(key)[|ToHex(key)| - 1])
  {
  }

  lemma JoinedEnds(a: bytes, b: bytes)
    requires a != [] && b != []
    ensures var s := Joined<byte>(a, COLON, b); s != [] && s[0] == a[0] && s[|s| - 1] == b[|b| - 1]
  {
  }

  // ── the connection list ────────────────────────────────────────────────────

  function RemoveAll(conns: seq<nat>, conn: nat): (r: seq<nat>)
    ensures conn !in r && forall c :: c in r ==> c in conns
  {
    if conns == [] then []
    else
      var rest := RemoveAll(conns[1..], conn);
      if conns[0] == conn then rest else [conns[0]] + rest
  }

  function Accepted(n: Net): Net {
    n.(connections := n.connections + [n.nextConn], incoming := n.incoming + {n.nextConn},
       connected := n.connected + {n.nextConn}, nextConn := n.nextConn + 1)
  }

  function Claimed(n: Net, conn: nat, h: Handshake): Net {
    n.(pending := n.pending[h.nick := conn], claimed := n.claimed[h.nick := h.key],
       claims := n.claims + {Claim(conn, h.nick, h.key)})
  }

  function Removed(n: Net, conn: nat): Net {
    n.(connections := RemoveAll(n.connections, conn))
  }

  /** Confirming or rejecting a nickname nobody claims does nothing. */
  function ConfirmedPeer(n: Net, nick: QString): Net {
    if nick !in n.pending then n
    else n.(pending := n.pending - {nick}, claimed := n.claimed - {nick},
            authenticated := n.authenticated + {n.pending[nick]},
            owners := n.owners[n.pending[nick] := nick])
  }

  function RejectedPeer(n: Net, nick: QString): Net {
    if nick !in n.pending then n
    else Removed(n.(pending := n.pending - {nick}, claimed := n.claimed - {nick}), n.pending[nick])
  }

  /** Dialling happens only with an empty list; its socket is not open yet. */
  function Dialled(n: Net, peer: QString): Net {
    if n.skipP2p || n.connections != [] then n
    else n.(connections := [n.nextConn], attempts := n.attempts[n.nextConn := peer], nextConn := n.nextConn + 1,
            owners := n.owners[n.nextConn := peer])
  }

  function DialOpened(n: Net, conn: nat, handshake: bytes): Net {
    n.(connected := n.connected + {conn}, attempts := n.attempts - {conn}, wire := n.wire + [(conn, handshake)])
  }

  function DialExpired(n: Net, conn: nat): Net {
    Removed(n.(attempts := n.attempts - {conn}), conn)
  }

  function Disconnected(n: Net, conn: nat): Net {
    Removed(n.(connected := n.connected - {conn}), conn)
  }

  function AllDropped(n: Net): Net {
    n.(connections := [], connected := set c | c in n.connected && c !in n.connections)
  }

  /** What `sendMessage` writes on each listed connection whose socket is open. */
  function Writes(conns: seq<nat>, open: set<nat>, data: bytes): seq<(nat, bytes)> {
    if conns == [] then []
    else
      var last := conns[|conns| - 1];
      Writes(conns[..|conns| - 1], open, data) + if last in open then [(last, data)] else []
  }

  function DataSent(n: Net, data: bytes): Net {
    n.(wire := n.wire + Writes(n.connections, n.connected, data))
  }

  /** Data is written at all exactly when some listed connection is open. */
  lemma {:induction false} WritesSomewhere(conns: seq<nat>, open: set<nat>, data: bytes)
    ensures Writes(conns, open, data) != [] <==> exists c :: c in conns && c in open
    ensures forall c :: c in conns && c in open ==> (c, data) in Writes(conns, open, data)
  {
    if conns != [] {
      WritesSomewhere(conns[..|conns| - 1], open, data);
      assert conns == conns[..|conns| - 1] + [conns[|conns| - 1]];
    }
  }

  lemma {:induction false} WritesOnly(conns: seq<nat>, open: set<nat>, data: bytes)
    ensures forall w :: w in Writes(conns, open, data) ==> w.0 in conns && w.0 in open && w.1 == data
  {
    if conns != [] {
      WritesOnly(conns[..|conns| - 1], open, data);
      assert conns == conns[..|conns| - 1] + [conns[|conns| - 1]];
    }
  }

  /** The connection was dialled to the peer, or its claim to be the peer was confirmed. */
  predicate Belongs(n: Net, conn: nat, peer: QString) {
    conn in n.owners && n.owners[conn] == peer
  }

  /** Broadcast data is written on a connection of this peer exactly when an open listed one is the peer's. */
  lemma WrittenTo(n: Net, peer: QString, data: bytes)
    ensures var w := DataSent(n, data).wire;
            && |n.wire| <= |w| && w[..|n.wire|] == n.wire
            && ((exists conn: nat :: Belongs(n, conn, peer) && (conn, data) in w[|n.wire|..])
                <==> exists conn: nat :: Belongs(n, conn, peer) && conn in n.connections && conn in n.connected)
  {
    var written := Writes(n.connections, n.connected, data);
    WritesSomewhere(n.connections, n.connected, data);
    WritesOnly(n.connections, n.connected, data);
    assert DataSent(n, data).wire[|n.wire|..] == written;
    hide Writes;
    if conn: nat :| Belongs(n, conn, peer) && (conn, data) in written {
      assert conn in n.connections && conn in n.connected;
    }
    if conn: nat :| Belongs(n, conn, peer) && conn in n.connections && conn in n.connected {
      assert (conn, data) in written;
    }
  }

  // ── the object ─────────────────────────────────────────────────────────────

  class NetworkManager {
    var connections: seq<nat>
    var incoming: set<nat>
    var connected: set<nat>
    var authenticated: set<nat>
    var pendingVerification: map<QString, nat>
    var claimedPubkeys: map<QString, bytes>
    var attempts: map<nat, QString>
    var skipP2p: bool
    var nickname: QString
    var wire: seq<(nat, bytes)>
    var nextConn: nat
    ghost var claims: set<Claim>
    ghost var owners: map<nat, QString>

    ghost function Abs(): Net
      reads this
    {
      Net(connections, incoming, connected, authenticated, pendingVerification, claimedPubkeys, attempts,
          skipP2p, wire, nextConn, claims, owners)
    }

    constructor ()
      ensures Abs() == NO_CONNECTIONS && nickname == []
    {
      connections, incoming, connected, authenticated := [], {}, {}, {};
      pendingVerification, claimedPubkeys, attempts := map[], map[], map[];
      skipP2p, nickname, wire, nextConn, claims, owners := false, [], [], 0, {}, map[];
    }

    method HandleNewConnection() returns (conn: nat)
      modifies this
      ensures Abs() == Accepted(old(Abs())) && conn == old(nextConn) && nickname == old(nickname)
    {
      conn := nextConn;
      incoming, connected := incoming + {conn}, connected + {conn};
      connections := connections + [conn];
      nextConn := nextConn + 1;
    }

    /** Data on an incoming connection that is not authenticated; None is a dropped connection. */
    method HandleHandshake(p: Platform, conn: nat, data: bytes) returns (claim: Option<Handshake>)
      modifies this
      ensures claim == ParseHandshake(p, data) && nickname == old(nickname)
      ensures Abs() == if claim.Some? then Claimed(old(Abs()), conn, claim.value) else Removed(old(Abs()), conn)
    {
      hide TrimLeft, TrimRight, FromHex;
      var payload := TrimRight(TrimLeft(data));
      var sep := IndexOf(payload, COLON, 0);
      if sep > 0 {
        var nick, key := p.fromUtf8(payload[..sep]), FromHex(payload[sep + 1..]);
        if nick != [] && |key| == KEY_BYTES {
          pendingVerification := pendingVerification[nick := conn];
          claimedPubkeys := claimedPubkeys[nick := key];
          claims := claims + {Claim(conn, nick, key)};
          return Some(Handshake(nick, key));
        }
      }
      connections := RemoveAll(connections, conn);
      return None;
    }

    /** True when `incoming_peer_authenticated` is emitted. */
    method ConfirmIncomingPeer(nick: QString) returns (authentic: bool)
      modifies this
      ensures Abs() == ConfirmedPeer(old(Abs()), nick) && nickname == old(nickname)
      ensures authentic == (nick in old(pendingVerification))
    {
      if nick !in pendingVerification { return false; }
      var conn := pendingVerification[nick];
      pendingVerification := pendingVerification - {nick};
      claimedPubkeys := claimedPubkeys - {nick};
      authenticated := authenticated + {conn};
      owners := owners[conn := nick];
      return true;
    }

    method RejectIncomingPeer(nick: QString)
      modifies this
      ensures Abs() == RejectedPeer(old(Abs()), nick) && nickname == old(nickname)
    {
      if nick !in pendingVerification { return; }
      var conn := pendingVerification[nick];
      pendingVerification := pendingVerification - {nick};
      claimedPubkeys := claimedPubkeys - {nick};
      connections := RemoveAll(connections, conn);
    }

    /** True when `p2p_failed` is emitted at once. */
    method ConnectToHost(peer: QString) returns (failed: bool)
      modifies this
      ensures Abs() == Dialled(old(Abs()), peer) && failed == old(skipP2p) && nickname == old(nickname)
    {
      if skipP2p { return true; }
      if connections != [] { return false; }
      attempts := attempts[nextConn := peer];
      owners := owners[nextConn := peer];
      connections := connections + [nextConn];
      nextConn := nextConn + 1;
      return false;
    }

    method SetSkipP2p(skip: bool)
      modifies this
      ensures Abs() == old(Abs()).(skipP2p := skip) && nickname == old(nickname)
    {
      skipP2p := skip;
    }

    method SendData(data: bytes)
      modifies this
      ensures Abs() == DataSent(old(Abs()), data) && nickname == old(nickname)
    {
      var i := 0;
      while i < |connections|
        invariant 0 <= i <= |connections|
        invariant wire == old(wire) + Writes(connections[..i], connected, data)
        modifies `wire
      {
        assert connections[..i + 1][..i] == connections[..i];
        if connections[i] in connected { wire := wire + [(connections[i], data)]; }
        i := i + 1;
      }
      assert connections[..i] == connections;
    }

    method DisconnectFromHost()
      modifies this
      ensures Abs() == AllDropped(old(Abs())) && nickname == old(nickname)
    {
      var i := 0;
      while i < |connections|
        invariant 0 <= i <= |connections|
        invariant connected == set c | c in old(connected) && c !in connections[..i]
        modifies `connected
      {
        connected := connected - {connections[i]};
        i := i + 1;
      }
      assert connections[..i] == connections;
      connections := [];
    }

    /** The slot of a connection's `disconnected`; true when `all_connections_lost` is emitted. */
    method ConnectionClosed(conn: nat) returns (allLost: bool)
      modifies this
      ensures Abs() == Disconnected(old(Abs()), conn) && allLost == (connections == []) && nickname == old(nickname)
    {
      connected := connected - {conn};
      connections := RemoveAll(connections, conn);
      return connections == [];
    }

    method DialConnected(p: Platform, conn: nat, key: bytes)
      modifies this
      ensures Abs() == DialOpened(old(Abs()), conn, HandshakeBytes(p, nickname, key)) && nickname == old(nickname)
    {
      connected := connected + {conn};
      attempts := attempts - {conn};
      wire := wire + [(conn, HandshakeBytes(p, nickname, key))];
    }

    method DialTimeout(conn: nat)
      modifies this
      ensures Abs() == DialExpired(old(Abs()), conn) && nickname == old(nickname)
    {
      attempts := attempts - {conn};
      connections := RemoveAll(connections, conn);
    }
  }
}
