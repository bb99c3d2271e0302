/** The library calls the client makes into libsodium and Qt's UTF-8 codec, and what they promise. */
module Platform {
  import opened Bytes

  datatype SessionKeys = SessionKeys(rx: bytes, tx: bytes)

  /** Arguments of the key exchange are (own public key, own secret key, peer public key). */
  datatype Platform = Platform(
    publicOf: bytes -> bytes,
    kxServer: (bytes, bytes, bytes) -> Option<SessionKeys>,
    kxClient: (bytes, bytes, bytes) -> Option<SessionKeys>,
    box: (bytes, bytes, bytes) -> bytes,
    open: (bytes, bytes, bytes) -> Option<bytes>,
    toUtf8: QString -> bytes,
    fromUtf8: bytes -> QString)

  const KEY_BYTES := 32
  const NONCE_BYTES := 24
  const MAC_BYTES := 16

  /** The server's session keys are the client's with the directions exchanged. */
  ghost predicate KxLaw(p: Platform) {
    forall a: bytes, b: bytes :: KxCross(p, a, b)
  }

  ghost predicate KxCross(p: Platform, a: bytes, b: bytes) {
    var server := p.kxServer(p.publicOf(a), a, p.publicOf(b));
    && server.Some?
    && p.kxClient(p.publicOf(b), b, p.publicOf(a)) == Some(SessionKeys(server.value.tx, server.value.rx))
  }

  /** A box is 16 bytes longer than its message and opens under the nonce and key that made it. */
  ghost predicate BoxLaw(p: Platform) {
    forall m: bytes, n: bytes, k: bytes ::
      |p.box(m, n, k)| == |m| + MAC_BYTES && p.open(p.box(m, n, k), n, k) == Some(m)
  }

  predicate IsAscii(s: QString) {
    forall i :: 0 <= i < |s| ==> s[i] < 128
  }

  /** Every surrogate is half of a pair. */
  predicate WellFormed(s: QString) {
    if s == [] then true
    else if 0xD800 <= s[0] < 0xDC00 then |s| > 1 && 0xDC00 <= s[1] < 0xE000 && WellFormed(s[2..])
    else !(0xDC00 <= s[0] < 0xE000) && WellFormed(s[1..])
  }

  /** Well-formed text survives UTF-8; an ASCII tail stays as it is; no '|' appears or disappears. */
  ghost predicate Utf8Law(p: Platform) {
    && (forall s: QString :: WellFormed(s) ==> p.fromUtf8(p.toUtf8(s)) == s)
    && (forall s: QString, tail: bytes :: IsAscii(tail) ==> p.toUtf8(s + tail) == p.toUtf8(s) + tail)
    && (forall s: QString :: (BAR in p.toUtf8(s) <==> BAR in s) && (p.toUtf8(s) == [] <==> s == []))
  }

  ghost predicate Laws(p: Platform) {
    KxLaw(p) && BoxLaw(p) && Utf8Law(p)
  }
}
