/** The laws assumed of the libraries are consistent: a toy platform satisfies all of them. */
module PlatformModel {
  import opened Bytes
  import opened Platform
  import opened Crypto

  /** Three bytes, none of them ASCII, for a unit that is not ASCII. */
  function EncodeUnit(u: unit): bytes {
    if u < 128 then [u] else [128 + u / 4096, 128 + u / 64 % 64, 128 + u % 64]
  }

  function UnitOf(a: byte, b: byte, c: byte): unit {
    (4096 * (a as int - 128) + 64 * (b as int - 128) + (c as int - 128)) % 0x1_0000
  }

  function Encode(s: QString): bytes {
    if s == [] then [] else EncodeUnit(s[0]) + Encode(s[1..])
  }

  function Decode(b: bytes): QString {
    if b == [] then []
    else if b[0] < 128 then [b[0]] + Decode(b[1..])
    else if |b| < 3 then []
    else [UnitOf(b[0], b[1], b[2])] + Decode(b[3..])
  }

  function ToyBox(m: bytes, n: bytes, k: bytes): bytes {
    m + seq(MAC_BYTES, i => 0)
  }

  function ToyOpen(c: bytes, n: bytes, k: bytes): Option<bytes> {
    if |c| >= MAC_BYTES then Some(c[..|c| - MAC_BYTES]) else None
  }

  function Toy(): Platform {
    Platform(
      sec => sec, (pub, sec, peer) => Some(SessionKeys(peer, pub)), (pub, sec, peer) => Some(SessionKeys(peer, pub)),
      (m, n, k) => ToyBox(m, n, k), (c, n, k) => ToyOpen(c, n, k), s => Encode(s), b => Decode(b))
  }

  lemma UnitRoundTrip(u: unit)
    requires u >= 128
    ensures UnitOf(128 + u / 4096, 128 + u / 64 % 64, 128 + u % 64) == u
  {
    assert u == 64 * (u / 64) + u % 64 && u / 64 == 64 * (u / 4096) + u / 64 % 64;
  }

  lemma DecodesUnit(u: unit, rest: bytes)
    ensures Decode(EncodeUnit(u) + rest) == [u] + Decode(rest)
  {
    if u >= 128 { UnitRoundTrip(u); }
    hide UnitOf;
    assert (EncodeUnit(u) + rest)[|EncodeUnit(u)|..] == rest;
  }

  lemma {:induction false} DecodesString(s: QString)
    ensures Decode(Encode(s)) == s
    ensures BAR in Encode(s) <==> BAR in s
    ensures Encode(s) == [] <==> s == []
  {
    if s != [] {
      hide Decode;
      DecodesString(s[1..]);
      DecodesUnit(s[0], Encode(s[1..]));
      assert s == [s[0]] + s[1..];
    }
  }

  lemma {:induction false} AsciiTail(s: QString, tail: bytes)
    requires IsAscii(tail)
    ensures Encode(s + tail) == Encode(s) + tail
  {
    if s != [] {
      hide EncodeUnit, IsAscii;
      AsciiTail(s[1..], tail);
      assert (s + tail)[1..] == s[1..] + tail;
    } else if tail != [] {
      AsciiTail(s, tail[1..]);
      assert s + tail == tail && s + tail[1..] == tail[1..] && tail == [tail[0]] + tail[1..];
    }
  }

  lemma BoxOpens(m: bytes, n: bytes, k: bytes)
    ensures |ToyBox(m, n, k)| == |m| + MAC_BYTES && ToyOpen(ToyBox(m, n, k), n, k) == Some(m)
  {
  }

  lemma LawsHaveAModel()
    ensures Laws(Toy()) && KxDistinct(Toy())
  {
    hide ToyBox, ToyOpen, Encode, Decode, IsAscii;
    var p := Toy();
    forall m: bytes, n: bytes, k: bytes
      ensures |p.box(m, n, k)| == |m| + MAC_BYTES && p.open(p.box(m, n, k), n, k) == Some(m)
    {
      BoxOpens(m, n, k);
    }
    forall s: QString
      ensures p.fromUtf8(p.toUtf8(s)) == s && (BAR in p.toUtf8(s) <==> BAR in s) && (p.toUtf8(s) == [] <==> s == [])
    {
      DecodesString(s);
    }
    forall s: QString, tail: bytes | IsAscii(tail) ensures p.toUtf8(s + tail) == p.toUtf8(s) + tail {
      AsciiTail(s, tail);
    }
  }
}
