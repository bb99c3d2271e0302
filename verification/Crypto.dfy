/** Key agreement and message encryption of one conversation. */
module Crypto {
  import opened Bytes
  import opened Platform

  /** The fields of a crypto manager; the session keys count once `ready`. */
  datatype Session = Session(pub: bytes, sec: bytes, rx: bytes, tx: bytes, ready: bool)

  function WithIdentity(s: Session, pub: bytes, sec: bytes): Session {
    s.(pub := pub, sec := sec, ready := false)
  }

  /** The side with the greater public key takes the server role. */
  function Exchange(p: Platform, pub: bytes, sec: bytes, peer: bytes): Option<SessionKeys> {
    if Less(peer, pub) then p.kxServer(pub, sec, peer) else p.kxClient(pub, sec, peer)
  }

  function WithSecret(p: Platform, s: Session, peer: bytes): Session {
    if s.ready then s
    else
      var keys := Exchange(p, s.pub, s.sec, peer);
      if keys.None? then s else s.(rx := keys.value.rx, tx := keys.value.tx, ready := true)
  }

  function Encrypt(p: Platform, s: Session, plaintext: bytes, nonce: bytes): bytes {
    if !s.ready then [] else nonce + p.box(plaintext, nonce, s.tx)
  }

  function Decrypt(p: Platform, s: Session, ciphertext: bytes): bytes {
    if !s.ready || |ciphertext| < NONCE_BYTES + MAC_BYTES then []
    else
      var plain := p.open(ciphertext[NONCE_BYTES..], ciphertext[..NONCE_BYTES], s.rx);
      if plain.None? then [] else plain.value
  }

  // ── the order that decides the roles ───────────────────────────────────────

  lemma {:induction false} LessTotal(a: bytes, b: bytes)
    ensures !(Less(a, b) && Less(b, a))
    ensures Less(a, b) || Less(b, a) <==> a != b
  {
    if a != [] && b != [] && a[0] == b[0] {
      LessTotal(a[1..], b[1..]);
      assert a == [a[0]] + a[1..] && b == [b[0]] + b[1..];
    }
  }

  lemma {:induction false} LessTransitive(a: bytes, b: bytes, c: bytes)
    requires Less(a, b) && Less(b, c)
    ensures Less(a, c)
  {
    if a != [] && a[0] == b[0] && b[0] == c[0] {
      LessTransitive(a[1..], b[1..], c[1..]);
    }
  }

  // ── agreement ──────────────────────────────────────────────────────────────

  /** What one side sends under is what the other receives under. */
  predicate Linked(a: Session, b: Session) {
    a.ready && b.ready && a.tx == b.rx && a.rx == b.tx
  }

  /** Calls on one conversation's manager, with a fixed identity and a fixed peer. */
  datatype KeyOp = SetIdentity | ComputeSecret

  function RunOps(p: Platform, s: Session, sec: bytes, peer: bytes, ops: seq<KeyOp>): Session {
    if ops == [] then s
    else
      var before := RunOps(p, s, sec, peer, ops[..|ops| - 1]);
      if ops[|ops| - 1].SetIdentity? then WithIdentity(before, p.publicOf(sec), sec)
      else WithSecret(p, before, peer)
  }

  /** The manager ends up with this identity: some call sets it, or it was made with it and has agreed nothing yet. */
  predicate Identified(p: Platform, s: Session, sec: bytes, ops: seq<KeyOp>) {
    SetIdentity in ops || (s.pub == p.publicOf(sec) && s.sec == sec && !s.ready)
  }

  /** Whatever was computed before, the session then holds, once ready, the keys of this pair. */
  lemma {:induction false} RunOpsKeys(p: Platform, s: Session, sec: bytes, peer: bytes, ops: seq<KeyOp>)
    requires Identified(p, s, sec, ops)
    ensures var end := RunOps(p, s, sec, peer, ops);
            && end.pub == p.publicOf(sec) && end.sec == sec
            && (end.ready ==> Exchange(p, end.pub, end.sec, peer) == Some(SessionKeys(end.rx, end.tx)))
  {
    if ops != [] && ops[|ops| - 1].ComputeSecret? {
      RunOpsKeys(p, s, sec, peer, ops[..|ops| - 1]);
    }
  }

  /** Exactly one of two distinct identities is the server, and their session keys cross. */
  lemma RolesCross(p: Platform, a: bytes, b: bytes)
    requires KxLaw(p) && p.publicOf(a) != p.publicOf(b)
    ensures Less(p.publicOf(a), p.publicOf(b)) != Less(p.publicOf(b), p.publicOf(a))
    ensures var ka := Exchange(p, p.publicOf(a), a, p.publicOf(b));
            var kb := Exchange(p, p.publicOf(b), b, p.publicOf(a));
            ka.Some? && kb == Some(SessionKeys(ka.value.tx, ka.value.rx))
  {
    LessTotal(p.publicOf(a), p.publicOf(b));
    assert KxCross(p, a, b) && KxCross(p, b, a);
  }

  /** Whatever the runs on both sides, if both end ready the two sessions match. */
  lemma KeyAgreement(p: Platform, a: bytes, b: bytes, sa: Session, sb: Session, opsA: seq<KeyOp>, opsB: seq<KeyOp>)
    requires KxLaw(p) && p.publicOf(a) != p.publicOf(b)
    requires Identified(p, sa, a, opsA) && Identified(p, sb, b, opsB)
    requires RunOps(p, sa, a, p.publicOf(b), opsA).ready && RunOps(p, sb, b, p.publicOf(a), opsB).ready
    ensures Linked(RunOps(p, sa, a, p.publicOf(b), opsA), RunOps(p, sb, b, p.publicOf(a), opsB))
  {
    RunOpsKeys(p, sa, a, p.publicOf(b), opsA);
    RunOpsKeys(p, sb, b, p.publicOf(a), opsB);
    RolesCross(p, a, b);
  }

  /** Linked sessions decrypt each other's messages; a ciphertext is 24 + 16 bytes longer. */
  lemma DecryptUndoesEncrypt(p: Platform, a: Session, b: Session, m: bytes, nonce: bytes)
    requires BoxLaw(p) && Linked(a, b) && |nonce| == NONCE_BYTES
    ensures Decrypt(p, b, Encrypt(p, a, m, nonce)) == m
    ensures |Encrypt(p, a, m, nonce)| == |m| + NONCE_BYTES + MAC_BYTES
  {
    var c := Encrypt(p, a, m, nonce);
    assert c[..NONCE_BYTES] == nonce && c[NONCE_BYTES..] == p.box(m, nonce, a.tx);
  }

  /** Two sides with the same public key both become clients, so the roles do not cross. */
  lemma SameKeyHasNoServer(p: Platform, pub: bytes, sec: bytes)
    ensures Exchange(p, pub, sec, pub) == p.kxClient(pub, sec, pub)
  {
    LessTotal(pub, pub);
  }

  /** Different public keys never agree on the same session keys. */
  ghost predicate KxDistinct(p: Platform) {
    forall pub: bytes, sec: bytes, a: bytes, b: bytes ::
      Exchange(p, pub, sec, a).Some? && Exchange(p, pub, sec, a) == Exchange(p, pub, sec, b) ==> a == b
  }

  lemma DistinctKeys(p: Platform, pub: bytes, sec: bytes, a: bytes, b: bytes)
    requires KxDistinct(p) && a != b && Exchange(p, pub, sec, a).Some?
    ensures Exchange(p, pub, sec, a) != Exchange(p, pub, sec, b)
  {
    hide Exchange;
  }

  // ── the object ─────────────────────────────────────────────────────────────

  class CryptoManager {
    var publicKey: bytes
    var secretKey: bytes
    var rx: bytes
    var tx: bytes
    var secretComputed: bool

    ghost function Abs(): Session
      reads this
    {
      Session(publicKey, secretKey, rx, tx, secretComputed)
    }

    constructor (pub: bytes, sec: bytes)
      ensures Abs() == Session(pub, sec, [], [], false)
    {
      publicKey, secretKey, rx, tx, secretComputed := pub, sec, [], [], false;
    }

    method ComputeSharedSecret(p: Platform, peer: bytes) returns (ok: bool)
      modifies this
      ensures Abs() == WithSecret(p, old(Abs()), peer)
      ensures ok == Abs().ready
    {
      if secretComputed { return true; }
      var keys: Option<SessionKeys>;
      if Less(peer, publicKey) {
        keys := p.kxServer(publicKey, secretKey, peer);
      } else {
        keys := p.kxClient(publicKey, secretKey, peer);
      }
      if keys.None? { return false; }
      rx, tx := keys.value.rx, keys.value.tx;
      secretComputed := true;
      return true;
    }

    method SetIdentity(pub: bytes, sec: bytes)
      modifies this
      ensures Abs() == WithIdentity(old(Abs()), pub, sec)
    {
      publicKey, secretKey := pub, sec;
      secretComputed := false;
    }

    method LoadKeypair(pub: bytes, sec: bytes)
      modifies this
      ensures Abs() == if |pub| == KEY_BYTES && |sec| == KEY_BYTES
                       then old(Abs()).(pub := pub, sec := sec) else old(Abs())
    {
      if |pub| == KEY_BYTES && |sec| == KEY_BYTES {
        publicKey, secretKey := pub, sec;
      }
    }
  }
}
