/** Byte arrays, UTF-16 strings and the few Qt operations on them that the client relies on. */
module Bytes {

  datatype Option<+T> = None | Some(value: T)

  type byte = x: int | 0 <= x < 0x100
  type bytes = seq<byte>

  /** A UTF-16 code unit; a QString is a sequence of them, lone surrogates included. */
  type unit = x: int | 0 <= x < 0x1_0000
  type QString = seq<unit>

  const BAR: byte := 124
  const COLON: byte := 58

  /** The character codes of a literal. */
  function Ascii(s: string): (r: bytes)
    ensures |r| == |s|
  {
    seq(|s|, i requires 0 <= i < |s| => s[i] as int % 0x80)
  }

  /** `operator<` of byte arrays and strings: lexicographic, a proper prefix being smaller. */
  predicate Less(a: QString, b: QString) {
    b != [] && (a == [] || a[0] < b[0] || (a[0] == b[0] && Less(a[1..], b[1..])))
  }

  /** `indexOf(c, from)`: the first position at or after `from`, or -1. */
  function IndexOf<T(==)>(s: seq<T>, c: T, from: nat): (r: int)
    ensures r == -1 <==> forall k :: from <= k < |s| ==> s[k] != c
    ensures r != -1 ==> from <= r < |s| && s[r] == c && forall k :: from <= k < r ==> s[k] != c
    decreases |s| - from
  {
    if from >= |s| then -1 else if s[from] == c then from else IndexOf(s, c, from + 1)
  }

  /** Two parts joined by a separator. */
  function Joined<T>(first: seq<T>, c: T, rest: seq<T>): (s: seq<T>)
    ensures |s| == |first| + 1 + |rest|
  {
    first + [c] + rest
  }

  /** The first separator ends a prefix that holds none, whatever follows it. */
  lemma FirstSeparator<T>(first: seq<T>, c: T, rest: seq<T>)
    requires c !in first
    ensures IndexOf(Joined(first, c, rest), c, 0) == |first|
    ensures Joined(first, c, rest)[..|first|] == first
    ensures Joined(first, c, rest)[|first| + 1..] == rest
  {
    var s := Joined(first, c, rest);
    assert s[|first|] == c;
    assert forall k :: 0 <= k < |first| ==> s[k] == first[k];
  }

  lemma {:induction false} IndexInTail<T>(first: seq<T>, c: T, rest: seq<T>, from: nat)
    requires from <= |rest|
    ensures var k := IndexOf(rest, c, from);
            IndexOf(Joined(first, c, rest), c, |first| + 1 + from) == if k == -1 then -1 else |first| + 1 + k
    decreases |rest| - from
  {
    if from < |rest| {
      assert Joined(first, c, rest)[|first| + 1 + from] == rest[from];
      IndexInTail(first, c, rest, from + 1);
    }
  }

  /** Two separators in a row split a sequence in three, whatever the last part holds. */
  lemma TwoSeparators<T>(a: seq<T>, b: seq<T>, c: T, rest: seq<T>, s: seq<T>)
    requires c !in a && c !in b && s == Joined(a, c, Joined(b, c, rest))
    ensures |s| == |a| + |b| + |rest| + 2
    ensures IndexOf(s, c, 0) == |a| && IndexOf(s, c, |a| + 1) == |a| + |b| + 1
    ensures s[..|a|] == a && s[|a| + 1..|a| + |b| + 1] == b && s[|a| + |b| + 2..] == rest
  {
    var tail := Joined(b, c, rest);
    FirstSeparator(a, c, tail);
    FirstSeparator(b, c, rest);
    IndexInTail(a, c, tail, 0);
    hide Joined, IndexOf;
    assert s[|a| + 1..][..|b|] == tail[..|b|] && s[|a| + 1..][|b| + 1..] == tail[|b| + 1..];
  }

  /** `split(c)`: the parts between separators, always at least one. */
  function Split<T(==)>(s: seq<T>, c: T): (parts: seq<seq<T>>)
    ensures |parts| >= 1
    decreases |s|
  {
    var k := IndexOf(s, c, 0);
    if k == -1 then [s] else [s[..k]] + Split(s[k + 1..], c)
  }

  lemma SplitJoined<T>(first: seq<T>, c: T, rest: seq<T>)
    requires c !in first
    ensures Split(Joined(first, c, rest), c) == [first] + Split(rest, c)
    ensures Split(first, c) == [first]
  {
    FirstSeparator(first, c, rest);
    hide Joined;
  }

  lemma SplitThree<T>(a: seq<T>, b: seq<T>, c: T, rest: seq<T>)
    requires c !in a && c !in b && c !in rest
    ensures Split(Joined(a, c, Joined(b, c, rest)), c) == [a, b, rest]
  {
    SplitJoined(a, c, Joined(b, c, rest));
    SplitJoined(b, c, rest);
    SplitJoined(rest, c, []);
    hide *;
  }

  // ── big-endian integers ────────────────────────────────────────────────────

  function Pow256(k: nat): (p: nat)
    ensures p >= 1
  {
    if k == 0 then 1 else 256 * Pow256(k - 1)
  }

  /** The low `k` bytes of `n`, most significant first. */
  function BigEndian(n: nat, k: nat): (b: bytes)
    ensures |b| == k
  {
    if k == 0 then [] else BigEndian(n / 256, k - 1) + [n % 256]
  }

  function FromBigEndian(b: bytes): (n: nat)
    ensures n < Pow256(|b|)
  {
    if b == [] then 0 else 256 * FromBigEndian(b[..|b| - 1]) + b[|b| - 1]
  }

  lemma {:induction false} BigEndianRoundTrip(n: nat, k: nat)
    requires n < Pow256(k)
    ensures FromBigEndian(BigEndian(n, k)) == n
  {
    if k > 0 {
      BigEndianRoundTrip(n / 256, k - 1);
      assert BigEndian(n, k)[..k - 1] == BigEndian(n / 256, k - 1);
    }
  }

  lemma {:induction false} FromBigEndianRoundTrip(b: bytes)
    ensures BigEndian(FromBigEndian(b), |b|) == b
  {
    if b != [] {
      FromBigEndianRoundTrip(b[..|b| - 1]);
      var n := FromBigEndian(b);
      assert n / 256 == FromBigEndian(b[..|b| - 1]) && n % 256 == b[|b| - 1];
      assert b == b[..|b| - 1] + [b[|b| - 1]];
    }
  }

  type int32 = x: int | -0x8000_0000 <= x < 0x8000_0000
  type int64 = x: int | -0x8000_0000_0000_0000 <= x < 0x8000_0000_0000_0000

  lemma PowersOf256()
    ensures Pow256(1) == 0x100 && Pow256(4) == 0x1_0000_0000 && Pow256(8) == 0x1_0000_0000_0000_0000
  {
    assert Pow256(1) == 256;
    assert Pow256(2) == 256 * 256;
    assert Pow256(3) == 256 * 256 * 256;
    assert Pow256(4) == 256 * 256 * 256 * 256;
    assert Pow256(5) == 256 * Pow256(4);
    assert Pow256(6) == 256 * Pow256(5);
    assert Pow256(7) == 256 * Pow256(6);
    assert Pow256(8) == 256 * Pow256(7);
  }

  /** Two's complement, as `operator<<(qint32)` writes it. */
  function Int32Bytes(x: int32): (b: bytes)
    ensures |b| == 4
  {
    BigEndian(if x < 0 then x + 0x1_0000_0000 else x, 4)
  }

  function Int32From(b: bytes): int32
    requires |b| == 4
  {
    PowersOf256();
    var n := FromBigEndian(b);
    if n < 0x8000_0000 then n else n - 0x1_0000_0000
  }

  function Int64Bytes(x: int64): (b: bytes)
    ensures |b| == 8
  {
    BigEndian(if x < 0 then x + 0x1_0000_0000_0000_0000 else x, 8)
  }

  function Int64From(b: bytes): int64
    requires |b| == 8
  {
    PowersOf256();
    var n := FromBigEndian(b);
    if n < 0x8000_0000_0000_0000 then n else n - 0x1_0000_0000_0000_0000
  }

  lemma Int32RoundTrip(x: int32)
    ensures Int32From(Int32Bytes(x)) == x
  {
    PowersOf256();
    BigEndianRoundTrip(if x < 0 then x + 0x1_0000_0000 else x, 4);
  }

  lemma Int32FromRoundTrip(b: bytes)
    requires |b| == 4
    ensures Int32Bytes(Int32From(b)) == b
  {
    PowersOf256();
    FromBigEndianRoundTrip(b);
  }

  lemma Int64RoundTrip(x: int64)
    ensures Int64From(Int64Bytes(x)) == x
  {
    PowersOf256();
    BigEndianRoundTrip(if x < 0 then x + 0x1_0000_0000_0000_0000 else x, 8);
  }

  // ── hexadecimal (RFC 4648 section 8, lower case) ───────────────────────────

  function HexDigit(n: int): (d: byte)
    requires 0 <= n < 16
    ensures 48 <= d <= 57 || 97 <= d <= 102
  {
    if n < 10 then 48 + n else 87 + n
  }

  predicate IsHexDigit(u: int) {
    48 <= u <= 57 || 65 <= u <= 70 || 97 <= u <= 102
  }

  function HexValue(u: int): (v: int)
    ensures 0 <= v < 16
  {
    if !IsHexDigit(u) then 0 else if u <= 57 then u - 48 else if u <= 70 then u - 55 else u - 87
  }

  function ToHex(b: bytes): (h: bytes)
    ensures |h| == 2 * |b|
    ensures forall i :: 0 <= i < |h| ==> 48 <= h[i] <= 57 || 97 <= h[i] <= 102
  {
    if b == [] then [] else [HexDigit(b[0] / 16), HexDigit(b[0] % 16)] + ToHex(b[1..])
  }

  /** `fromHex` skips every character that is not a hex digit, so text needs no encoding first. */
  function HexDigits(h: QString): bytes {
    if h == [] then [] else (if IsHexDigit(h[0]) then [h[0]] else []) + HexDigits(h[1..])
  }

  function PairDigits(d: bytes): bytes
    requires |d| % 2 == 0
  {
    if d == [] then [] else [16 * HexValue(d[0]) + HexValue(d[1])] + PairDigits(d[2..])
  }

  /** Digits are paired from the end, so an odd leading digit stands alone. */
  function FromHex(h: QString): bytes {
    var d := HexDigits(h);
    if |d| % 2 == 0 then PairDigits(d) else [HexValue(d[0])] + PairDigits(d[1..])
  }

  lemma {:induction false} HexDigitsOfHex(h: bytes)
    requires forall i :: 0 <= i < |h| ==> IsHexDigit(h[i])
    ensures HexDigits(h) == h
  {
    if h != [] {
      HexDigitsOfHex(h[1..]);
      assert h == [h[0]] + h[1..];
    }
  }

  lemma HexByte(n: byte)
    ensures 16 * HexValue(HexDigit(n / 16)) + HexValue(HexDigit(n % 16)) == n
  {
  }

  lemma {:induction false} PairDigitsOfHex(b: bytes)
    ensures PairDigits(ToHex(b)) == b
  {
    if b != [] {
      PairDigitsOfHex(b[1..]);
      HexByte(b[0]);
      hide HexValue, HexDigit, IsHexDigit;
      assert ToHex(b)[2..] == ToHex(b[1..]);
      assert b == [b[0]] + b[1..];
    }
  }

  /** Decoding undoes encoding, for every byte array. */
  lemma HexRoundTrip(b: bytes)
    ensures FromHex(ToHex(b)) == b && HexDigits(ToHex(b)) == ToHex(b)
    ensures BAR !in ToHex(b) && COLON !in ToHex(b)
  {
    PairDigitsOfHex(b);
    HexDigitsOfHex(ToHex(b));
  }
}
