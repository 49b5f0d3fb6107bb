/** Checkpointed hashing: SHA-1 and SHA-256 whose state can be saved between any
    two updates.  The reference functions follow sections 4, 5.1.1, 6.1.2 and 6.2.2
    of FIPS 180-4; the class follows the code. */
module Hashing {
  import opened Repository

  type Word = bv32

  datatype Alg = Sha1 | Sha256

  // ---- the reference: FIPS 180-4 ----

  // Addition modulo 2^32 and exclusive or of several words.

  function Plus(x: Word, y: Word): Word { x + y }

  function Sum4(a: Word, b: Word, c: Word, d: Word): Word { a + b + c + d }

  function Sum5(a: Word, b: Word, c: Word, d: Word, e: Word): Word { a + b + c + d + e }

  function Rotl(x: Word, n: nat): Word
    requires n < 32
  {
    x.RotateLeft(n)
  }

  function Rotr(x: Word, n: nat): Word
    requires n < 32
  {
    x.RotateRight(n)
  }

  function Xor4(a: Word, b: Word, c: Word, d: Word): Word { a ^ b ^ c ^ d }

  function Ch(x: Word, y: Word, z: Word): Word { (x & y) ^ (!x & z) }

  function Maj(x: Word, y: Word, z: Word): Word { (x & y) ^ (x & z) ^ (y & z) }

  function F1(t: nat, x: Word, y: Word, z: Word): Word {
    if t < 20 then Ch(x, y, z) else if 40 <= t < 60 then Maj(x, y, z) else x ^ y ^ z
  }

  function K1(t: nat): Word {
    if t < 20 then 0x5A827999 else if t < 40 then 0x6ED9EBA1 else if t < 60 then 0x8F1BBCDC else 0xCA62C1D6
  }

  function Pick(i: int, a: Word, b: Word, c: Word, d: Word, e: Word, f: Word, g: Word, h: Word): Word {
    if i < 4 then (if i < 2 then (if i < 1 then a else b) else if i < 3 then c else d)
    else if i < 6 then (if i < 5 then e else f) else if i < 7 then g else h
  }

  function K256(t: nat): Word {
    if t < 8 then Pick(t - 0, 0x428A2F98, 0x71374491, 0xB5C0FBCF, 0xE9B5DBA5, 0x3956C25B, 0x59F111F1, 0x923F82A4,
      0xAB1C5ED5) else
    if t < 16 then Pick(t - 8, 0xD807AA98, 0x12835B01, 0x243185BE, 0x550C7DC3, 0x72BE5D74, 0x80DEB1FE, 0x9BDC06A7,
      0xC19BF174) else
    if t < 24 then Pick(t - 16, 0xE49B69C1, 0xEFBE4786, 0x0FC19DC6, 0x240CA1CC, 0x2DE92C6F, 0x4A7484AA, 0x5CB0A9DC,
      0x76F988DA) else
    if t < 32 then Pick(t - 24, 0x983E5152, 0xA831C66D, 0xB00327C8, 0xBF597FC7, 0xC6E00BF3, 0xD5A79147, 0x06CA6351,
      0x14292967) else
    if t < 40 then Pick(t - 32, 0x27B70A85, 0x2E1B2138, 0x4D2C6DFC, 0x53380D13, 0x650A7354, 0x766A0ABB, 0x81C2C92E,
      0x92722C85) else
    if t < 48 then Pick(t - 40, 0xA2BFE8A1, 0xA81A664B, 0xC24B8B70, 0xC76C51A3, 0xD192E819, 0xD6990624, 0xF40E3585,
      0x106AA070) else
    if t < 56 then Pick(t - 48, 0x19A4C116, 0x1E376C08, 0x2748774C, 0x34B0BCB5, 0x391C0CB3, 0x4ED8AA4A, 0x5B9CCA4F,
      0x682E6FF3) else
    Pick(t - 56, 0x748F82EE, 0x78A5636F, 0x84C87814, 0x8CC70208, 0x90BEFFFA, 0xA4506CEB, 0xBEF9A3F7, 0xC67178F2)
  }

  function Initial(alg: Alg): (r: seq<Word>)
    ensures |r| == Words(alg)
  {
    match alg
    case Sha1 => [0x67452301, 0xEFCDAB89, 0x98BADCFE, 0x10325476, 0xC3D2E1F0]
    case Sha256 =>
      [0x6A09E667, 0xBB67AE85, 0x3C6EF372, 0xA54FF53A, 0x510E527F, 0x9B05688C, 0x1F83D9AB, 0x5BE0CD19]
  }

  function Words(alg: Alg): nat {
    if alg.Sha1? then 5 else 8
  }

  function RoundCount(alg: Alg): nat {
    if alg.Sha1? then 80 else 64
  }

  function BigEndian(b: seq<Byte>, i: nat): Word
    requires 4 * i + 3 < |b|
  {
    (b[4 * i] as Word << 24) | (b[4 * i + 1] as Word << 16) | (b[4 * i + 2] as Word << 8) | (b[4 * i + 3] as Word)
  }

  function Sigma0(x: Word): Word { Rotr(x, 2) ^ Rotr(x, 13) ^ Rotr(x, 22) }
  function Sigma1(x: Word): Word { Rotr(x, 6) ^ Rotr(x, 11) ^ Rotr(x, 25) }
  function SmallSigma0(x: Word): Word { Rotr(x, 7) ^ Rotr(x, 18) ^ (x >> 3) }
  function SmallSigma1(x: Word): Word { Rotr(x, 17) ^ Rotr(x, 19) ^ (x >> 10) }

  /** The message schedule, word by word. */
  function Scheduled(alg: Alg, b: seq<Byte>, t: nat): Word
    requires |b| == 64
  {
    if t < 16 then BigEndian(b, t) else
      match alg
      case Sha1 =>
        Rotl(Xor4(Scheduled(alg, b, t - 3), Scheduled(alg, b, t - 8),
                  Scheduled(alg, b, t - 14), Scheduled(alg, b, t - 16)), 1)
      case Sha256 =>
        Sum4(SmallSigma1(Scheduled(alg, b, t - 2)), Scheduled(alg, b, t - 7),
             SmallSigma0(Scheduled(alg, b, t - 15)), Scheduled(alg, b, t - 16))
  }

  /** The working variables; SHA-1 has five. */
  datatype Vars = Vars(a: Word, b: Word, c: Word, d: Word, e: Word, f: Word, g: Word, h: Word)

  /** One round, with the schedule word `w`. */
  function Round(alg: Alg, v: Vars, t: nat, w: Word): Vars {
    match alg
    case Sha1 =>
      var x := Sum5(Rotl(v.a, 5), F1(t, v.b, v.c, v.d), v.e, K1(t), w);
      v.(a := x, b := v.a, c := Rotl(v.b, 30), d := v.c, e := v.d)
    case Sha256 =>
      var t1 := Sum5(v.h, Sigma1(v.e), Ch(v.e, v.f, v.g), K256(t), w);
      var t2 := Plus(Sigma0(v.a), Maj(v.a, v.b, v.c));
      Vars(Plus(t1, t2), v.a, v.b, v.c, Plus(v.d, t1), v.e, v.f, v.g)
  }

  function Rounds(alg: Alg, v: Vars, b: seq<Byte>, t: nat): Vars
    requires |b| == 64
  {
    if t == 0 then v else Round(alg, Rounds(alg, v, b, t - 1), t - 1, Scheduled(alg, b, t - 1))
  }

  function VarsOf(alg: Alg, h: seq<Word>): Vars
    requires |h| == Words(alg)
  {
    match alg
    case Sha1 => Vars(h[0], h[1], h[2], h[3], h[4], 0, 0, 0)
    case Sha256 => Vars(h[0], h[1], h[2], h[3], h[4], h[5], h[6], h[7])
  }

  /** The intermediate hash value after block `b`. */
  function Compress(alg: Alg, h: seq<Word>, b: seq<Byte>): (r: seq<Word>)
    requires |h| == Words(alg) && |b| == 64
    ensures |r| == Words(alg)
  {
    var v := Rounds(alg, VarsOf(alg, h), b, RoundCount(alg));
    match alg
    case Sha1 => [Plus(h[0], v.a), Plus(h[1], v.b), Plus(h[2], v.c), Plus(h[3], v.d), Plus(h[4], v.e)]
    case Sha256 => [Plus(h[0], v.a), Plus(h[1], v.b), Plus(h[2], v.c), Plus(h[3], v.d),
                    Plus(h[4], v.e), Plus(h[5], v.f), Plus(h[6], v.g), Plus(h[7], v.h)]
  }

  /** The hash value after every whole block of `m`. */
  function Fold(alg: Alg, m: seq<Byte>): (r: seq<Word>)
    ensures |r| == Words(alg)
  {
    FoldTo(alg, m, |m| / 64)
  }

  /** .. after its first i blocks. */
  function FoldTo(alg: Alg, m: seq<Byte>, i: nat): (r: seq<Word>)
    requires 64 * i <= |m|
    ensures |r| == Words(alg)
  {
    if i == 0 then Initial(alg) else Compress(alg, FoldTo(alg, m, i - 1), m[64 * i - 64..64 * i])
  }

  /** Wrap-around at 64 bits. */
  function U64(n: nat): nat {
    n % 0x1_0000_0000_0000_0000
  }

  function Length64(n: nat): (r: seq<Byte>)
    ensures |r| == 8
  {
    seq(8, i requires 0 <= i < 8 => Digit(n, 7 - i))
  }

  function Digit(n: nat, k: nat): Byte {
    if k == 0 then (n % 256) as Byte else Digit(n / 256, k - 1)
  }

  function Zeros(n: nat): (r: seq<Byte>)
    ensures |r| == n
  {
    seq(n, i => 0)
  }

  function ZeroCount(n: nat): nat {
    (119 - n % 64) % 64
  }

  lemma PadLength(n: nat)
    ensures (n + 1 + ZeroCount(n) + 8) % 64 == 0
  {
  }

  /** Section 5.1.1: a one bit, zeros up to 448 modulo 512, the length in bits. */
  function Pad(m: seq<Byte>): (r: seq<Byte>)
    ensures |r| % 64 == 0
  {
    PadLength(|m|);
    m + [0x80] + Zeros(ZeroCount(|m|)) + Length64(U64(8 * |m|))
  }

  function WordBytes(x: Word): seq<Byte> {
    [(x >> 24) as Byte, ((x >> 16) & 0xFF) as Byte, ((x >> 8) & 0xFF) as Byte, (x & 0xFF) as Byte]
  }

  function Bytes(h: seq<Word>): seq<Byte> {
    if h == [] then [] else WordBytes(h[0]) + Bytes(h[1..])
  }

  function Digest(alg: Alg, m: seq<Byte>): seq<Byte> {
    Bytes(Fold(alg, Pad(m)))
  }

  // ---- the code's boolean forms ----

  lemma ChOr(x: Word, y: Word, z: Word)
    ensures (x & y) | (!x & z) == Ch(x, y, z)
  {
  }

  lemma MajOr(x: Word, y: Word, z: Word)
    ensures (x & y) | (x & z) | (y & z) == Maj(x, y, z)
  {
  }

  // ---- folding ----

  lemma {:induction false} FoldPrefix(alg: Alg, a: seq<Byte>, b: seq<Byte>, i: nat)
    requires 64 * i <= |a|
    ensures FoldTo(alg, a + b, i) == FoldTo(alg, a, i)
  {
    hide Compress;
    if i > 0 {
      FoldPrefix(alg, a, b, i - 1);
      assert (a + b)[64 * i - 64..64 * i] == a[64 * i - 64..64 * i];
    }
  }

  // ---- the saved state ----

  datatype HashState = HashState(alg: Alg, h: seq<Word>, len: nat, buf: seq<Byte>)

  /** Hashing `m` leaves `h` after k whole blocks, and the rest buffered. */
  ghost predicate FoldedAt(alg: Alg, h: seq<Word>, buf: seq<Byte>, m: seq<Byte>, k: nat) {
    && |m| == 64 * k + |buf|
    && h == FoldTo(alg, m, k)
    && m == m[..64 * k] + buf
  }

  ghost predicate Folded(alg: Alg, h: seq<Word>, buf: seq<Byte>, m: seq<Byte>) {
    |buf| < 64 && exists k: nat :: FoldedAt(alg, h, buf, m, k)
  }

  /** `hs` is the state after hashing `m`. */
  ghost predicate Absorbed(hs: HashState, m: seq<Byte>) {
    Folded(hs.alg, hs.h, hs.buf, m) && hs.len == U64(|m|)
  }

  lemma Regroup<T>(a: seq<T>, b: seq<T>, d: seq<T>)
    ensures (a + b) + d == a + (b + d)
    ensures (a + (b + d))[..|a|] == a && (a + (b + d))[|a|..] == b + d
  {
  }

  lemma Extended<T>(m: seq<T>, d: seq<T>, i: nat, n: nat)
    requires i + n <= |d|
    ensures (m + d[..i]) + d[i..i + n] == m + d[..i + n]
  {
  }

  lemma Unwrap(x: nat, q: nat)
    ensures U64(x + q * 0x1_0000_0000_0000_0000) == U64(x)
  {
  }

  lemma LengthAdds(a: nat, b: nat)
    ensures U64(U64(a) + b) == U64(a + b)
  {
    Unwrap(U64(a) + b, a / 0x1_0000_0000_0000_0000);
  }

  lemma AbsorbPart(alg: Alg, h: seq<Word>, buf: seq<Byte>, m: seq<Byte>, d: seq<Byte>)
    requires Folded(alg, h, buf, m) && |buf| + |d| < 64
    ensures Folded(alg, h, buf + d, m + d)
  {
    hide Compress;
    var k: nat :| FoldedAt(alg, h, buf, m, k);
    FoldPrefix(alg, m, d, k);
    Regroup(m[..64 * k], buf, d);
    assert FoldedAt(alg, h, buf + d, m + d, k);
  }

  lemma AbsorbBlock(alg: Alg, h: seq<Word>, buf: seq<Byte>, m: seq<Byte>, d: seq<Byte>)
    requires Folded(alg, h, buf, m) && |buf| + |d| == 64
    ensures |h| == Words(alg) && Folded(alg, Compress(alg, h, buf + d), [], m + d)
  {
    hide Compress;
    var k: nat :| FoldedAt(alg, h, buf, m, k);
    FoldPrefix(alg, m, d, k);
    Regroup(m[..64 * k], buf, d);
    assert (m + d)[..64 * k + 64] == m + d;
    assert FoldedAt(alg, Compress(alg, h, buf + d), [], m + d, k + 1);
  }

  /** The padding loop stops exactly at 448 modulo 512 bits. */
  lemma PadStops(hs: HashState, p: seq<Byte>, z: nat, k: nat)
    requires Absorbed(hs, p + Zeros(k)) && p != [] && k <= z && ZeroCount(|p| - 1) == z
    ensures |hs.buf| == 56 <==> k == z
  {
    hide FoldTo, U64, Compress;
    PadLength(|p| - 1);
  }

  lemma ZerosNext(p: seq<Byte>, k: nat)
    ensures p + Zeros(k) + [0] == p + Zeros(k + 1)
  {
  }

  /** A padded message leaves nothing buffered. */
  lemma Padded(hs: HashState, m: seq<Byte>)
    requires Absorbed(hs, Pad(m))
    ensures hs.h == Fold(hs.alg, Pad(m))
  {
    hide Compress, U64;
    var k: nat :| FoldedAt(hs.alg, hs.h, hs.buf, Pad(m), k);
    assert |Pad(m)| / 64 == k;
  }

  lemma BitLength(n: nat)
    ensures U64(U64(n) * 8) == U64(8 * n)
  {
    Unwrap(U64(n) * 8, 8 * (n / 0x1_0000_0000_0000_0000));
  }

  // ---- the code ----

  /** The code's choice of function and constant for a SHA-1 round. */
  function Mixed(i: nat, x: Word, y: Word, z: Word): (Word, Word) {
    if i <= 19 then ((x & y) | (!x & z), 0x5A827999)
    else if i <= 39 then (x ^ y ^ z, 0x6ED9EBA1)
    else if i <= 59 then ((x & y) | (x & z) | (y & z), 0x8F1BBCDC)
    else (x ^ y ^ z, 0xCA62C1D6)
  }

  lemma MixedIs(i: nat, x: Word, y: Word, z: Word)
    ensures Mixed(i, x, y, z) == (F1(i, x, y, z), K1(i))
  {
    ChOr(x, y, z);
    MajOr(x, y, z);
  }

  /** `CkptSha1::block`. */
  method Block1(h: seq<Word>, b: seq<Byte>) returns (r: seq<Word>)
    requires |h| == 5 && |b| == 64
    ensures r == Compress(Sha1, h, b)
  {
    hide Plus, Rounds;
    var w := Schedule1(b);
    var s := Loop1(h, w, b);
    r := Added(h, s);
  }

  method Schedule1(b: seq<Byte>) returns (w: array<Word>)
    requires |b| == 64
    ensures w.Length == 80 && forall j :: 0 <= j < 80 ==> w[j] == Scheduled(Sha1, b, j)
  {
    hide Rotl, Xor4, BigEndian;
    w := new Word[80];
    for i := 0 to 16
      invariant forall j :: 0 <= j < i ==> w[j] == Scheduled(Sha1, b, j)
    {
      w[i] := BigEndian(b, i);
    }
    for i := 16 to 80
      invariant forall j :: 0 <= j < i ==> w[j] == Scheduled(Sha1, b, j)
    {
      w[i] := Rotl(Xor4(w[i - 3], w[i - 8], w[i - 14], w[i - 16]), 1);
    }
  }

  method Loop1(h: seq<Word>, w: array<Word>, ghost b: seq<Byte>) returns (s: seq<Word>)
    requires |h| == 5 && |b| == 64 && w.Length == 80 && forall j :: 0 <= j < 80 ==> w[j] == Scheduled(Sha1, b, j)
    ensures |s| == 5 && VarsOf(Sha1, s) == Rounds(Sha1, VarsOf(Sha1, h), b, 80)
  {
    hide Round, Scheduled;
    s := h;
    for i := 0 to 80
      invariant |s| == 5 && VarsOf(Sha1, s) == Rounds(Sha1, VarsOf(Sha1, h), b, i)
    {
      s := Round1(s, i, w[i]);
    }
  }

  /** The last loop of either block: the words of `s` are added to those of `h`. */
  method Added(h: seq<Word>, s: seq<Word>) returns (r: seq<Word>)
    requires |s| == |h|
    ensures |r| == |h| && forall i :: 0 <= i < |h| ==> r[i] == Plus(h[i], s[i])
  {
    r := h;
    for i := 0 to |h|
      invariant |r| == |h| && forall j :: 0 <= j < |h| ==> r[j] == if j < i then Plus(h[j], s[j]) else h[j]
    {
      r := r[i := Plus(r[i], s[i])];
    }
  }

  /** One pass of its round loop. */
  method Round1(s: seq<Word>, i: nat, w: Word) returns (r: seq<Word>)
    requires |s| == 5
    ensures |r| == 5 && VarsOf(Sha1, r) == Round(Sha1, VarsOf(Sha1, s), i, w)
  {
    var fk := Mixed(i, s[1], s[2], s[3]);
    MixedIs(i, s[1], s[2], s[3]);
    r := [Sum5(Rotl(s[0], 5), fk.0, s[4], fk.1, w), s[0], Rotl(s[1], 30), s[2], s[3]];
  }

  /** The code's next schedule word of SHA-256, from the words 16, 15, 7 and 2 before it. */
  function Next(w16: Word, w15: Word, w7: Word, w2: Word): Word {
    var s0 := Rotr(w15, 7) ^ Rotr(w15, 18) ^ (w15 >> 3);
    var s1 := Rotr(w2, 17) ^ Rotr(w2, 19) ^ (w2 >> 10);
    Sum4(w16, s0, w7, s1)
  }

  /** It adds the terms in another order than the standard. */
  lemma NextIs(w16: Word, w15: Word, w7: Word, w2: Word)
    ensures Next(w16, w15, w7, w2) == Sum4(SmallSigma1(w2), w7, SmallSigma0(w15), w16)
  {
    SumOrder(w16, SmallSigma0(w15), w7, SmallSigma1(w2));
  }

  lemma SumOrder(a: Word, b: Word, c: Word, d: Word)
    ensures Sum4(a, b, c, d) == Sum4(d, c, b, a)
  {
  }

  /** The code's two temporaries of a SHA-256 round. */
  function Temps(s0: Word, s1: Word, s2: Word, s4: Word, s5: Word, s6: Word, s7: Word, k: Word, w: Word): (Word, Word) {
    var e1 := Rotr(s4, 6) ^ Rotr(s4, 11) ^ Rotr(s4, 25);
    var ch := (s4 & s5) ^ (!s4 & s6);
    var t1 := Sum5(s7, e1, ch, k, w);
    var e0 := Rotr(s0, 2) ^ Rotr(s0, 13) ^ Rotr(s0, 22);
    var mj := (s0 & s1) ^ (s0 & s2) ^ (s1 & s2);
    (t1, Plus(e0, mj))
  }

  lemma TempsAre(s0: Word, s1: Word, s2: Word, s4: Word, s5: Word, s6: Word, s7: Word, k: Word, w: Word)
    ensures Temps(s0, s1, s2, s4, s5, s6, s7, k, w)
      == (Sum5(s7, Sigma1(s4), Ch(s4, s5, s6), k, w), Plus(Sigma0(s0), Maj(s0, s1, s2)))
  {
  }

  /** `CkptSha256::block`. */
  method Block256(h: seq<Word>, b: seq<Byte>) returns (r: seq<Word>)
    requires |h| == 8 && |b| == 64
    ensures r == Compress(Sha256, h, b)
  {
    hide Plus, Rounds;
    var w := Schedule256(b);
    var s := Loop256(h, w, b);
    r := Added(h, s);
  }

  method Schedule256(b: seq<Byte>) returns (w: array<Word>)
    requires |b| == 64
    ensures w.Length == 64 && forall j :: 0 <= j < 64 ==> w[j] == Scheduled(Sha256, b, j)
  {
    hide Next, Sum4, SmallSigma0, SmallSigma1, BigEndian;
    w := new Word[64];
    for i := 0 to 16
      invariant forall j :: 0 <= j < i ==> w[j] == Scheduled(Sha256, b, j)
    {
      w[i] := BigEndian(b, i);
    }
    for i := 16 to 64
      invariant forall j :: 0 <= j < i ==> w[j] == Scheduled(Sha256, b, j)
    {
      NextIs(w[i - 16], w[i - 15], w[i - 7], w[i - 2]);
      w[i] := Next(w[i - 16], w[i - 15], w[i - 7], w[i - 2]);
    }
  }

  method Loop256(h: seq<Word>, w: array<Word>, ghost b: seq<Byte>) returns (s: seq<Word>)
    requires |h| == 8 && |b| == 64 && w.Length == 64 && forall j :: 0 <= j < 64 ==> w[j] == Scheduled(Sha256, b, j)
    ensures |s| == 8 && VarsOf(Sha256, s) == Rounds(Sha256, VarsOf(Sha256, h), b, 64)
  {
    hide Round, Scheduled;
    s := h;
    for i := 0 to 64
      invariant |s| == 8 && VarsOf(Sha256, s) == Rounds(Sha256, VarsOf(Sha256, h), b, i)
    {
      s := Round256(s, i, w[i]);
    }
  }

  /** One pass of its round loop. */
  method Round256(s: seq<Word>, i: nat, w: Word) returns (r: seq<Word>)
    requires |s| == 8
    ensures |r| == 8 && VarsOf(Sha256, r) == Round(Sha256, VarsOf(Sha256, s), i, w)
  {
    var t := Temps(s[0], s[1], s[2], s[4], s[5], s[6], s[7], K256(i), w);
    TempsAre(s[0], s[1], s[2], s[4], s[5], s[6], s[7], K256(i), w);
    r := [Plus(t.0, t.1), s[0], s[1], s[2], Plus(s[3], t.0), s[4], s[5], s[6]];
  }

  /** One block, as the code of either algorithm computes it. */
  method Block(alg: Alg, h: seq<Word>, b: seq<Byte>) returns (r: seq<Word>)
    requires |h| == Words(alg) && |b| == 64
    ensures r == Compress(alg, h, b)
  {
    match alg
    case Sha1 => r := Block1(h, b);
    case Sha256 => r := Block256(h, b);
  }

  class CkptHash {
    const alg: Alg
    var h: seq<Word>
    var len: nat
    var buf: seq<Byte>

    function Save(): HashState
      reads this
    {
      HashState(alg, h, len, buf)
    }

    constructor (alg: Alg)
      ensures this.alg == alg && Absorbed(Save(), [])
    {
      this.alg, h, len, buf := alg, Initial(alg), 0, [];
      new;
      assert FoldedAt(alg, h, [], [], 0);
    }

    constructor Restore(hs: HashState)
      ensures Save() == hs
    {
      alg, h, len, buf := hs.alg, hs.h, hs.len, hs.buf;
    }

    /** Bytes that fit the block under way; a full block is hashed. */
    method Fill(a: seq<Byte>, ghost m: seq<Byte>)
      requires Folded(alg, h, buf, m) && a != [] && |buf| + |a| <= 64
      modifies this`h, this`buf
      ensures Folded(alg, h, buf, m + a)
    {
      hide Compress, FoldedAt;
      if |buf| + |a| == 64 { AbsorbBlock(alg, h, buf, m, a); } else { AbsorbPart(alg, h, buf, m, a); }
      buf := buf + a;
      if |buf| == 64 {
        h := Block(alg, h, buf);
        buf := [];
      }
    }

    /** Absorb `d`, whatever message `m` was absorbed before and however it was split. */
    method Update(d: seq<Byte>, ghost m: seq<Byte>)
      requires Absorbed(Save(), m)
      modifies this
      ensures Absorbed(Save(), m + d)
    {
      hide FoldedAt, U64;
      LengthAdds(|m|, |d|);
      len := U64(len + |d|);
      var i := 0;
      assert m + d[..0] == m;
      while i < |d|
        invariant i <= |d| && Folded(alg, h, buf, m + d[..i]) && len == U64(|m| + |d|)
      {
        var n := if 64 - |buf| <= |d| - i then 64 - |buf| else |d| - i;
        Fill(d[i..i + n], m + d[..i]);
        Extended(m, d, i, n);
        i := i + n;
      }
      assert d[..i] == d;
    }

    /** Zero bytes up to the length field. */
    method Stuff(ghost p: seq<Byte>, ghost z: nat)
      requires Absorbed(Save(), p) && p != [] && ZeroCount(|p| - 1) == z
      modifies this
      ensures Absorbed(Save(), p + Zeros(z))
    {
      hide FoldedAt, U64;
      ghost var k := 0;
      assert p + Zeros(0) == p;
      while |buf| != 56
        invariant Absorbed(Save(), p + Zeros(k)) && k <= z
        decreases z - k
      {
        PadStops(Save(), p, z, k);
        Update([0], p + Zeros(k));
        ZerosNext(p, k);
        k := k + 1;
      }
      PadStops(Save(), p, z, k);
    }

    /** Pad and finish: the result is the one-shot hash of everything absorbed. */
    method Fin(ghost m: seq<Byte>) returns (out: seq<Byte>)
      requires Absorbed(Save(), m)
      modifies this
      ensures out == Digest(alg, m)
    {
      hide FoldedAt, U64, Fold;
      var bits := U64(len * 8);
      Update([0x80], m);
      Stuff(m + [0x80], ZeroCount(|m|));
      BitLength(|m|);
      Update(Length64(bits), m + [0x80] + Zeros(ZeroCount(|m|)));
      Padded(Save(), m);
      out := Bytes(h);
    }
  }

  function Concat(chunks: seq<seq<Byte>>): seq<Byte> {
    if chunks == [] then [] else Concat(chunks[..|chunks| - 1]) + chunks[|chunks| - 1]
  }

  /** Hashing in slices, each of which restores the state the slice before saved,
      gives the one-shot hash of the concatenation. */
  method HashSlices(alg: Alg, chunks: seq<seq<Byte>>) returns (out: seq<Byte>)
    ensures out == Digest(alg, Concat(chunks))
  {
    hide FoldedAt, U64, Fold;
    var first := new CkptHash(alg);
    var saved := first.Save();
    var i := 0;
    while i < |chunks|
      invariant 0 <= i <= |chunks| && saved.alg == alg
      invariant Absorbed(saved, Concat(chunks[..i]))
    {
      var hasher := new CkptHash.Restore(saved);
      hasher.Update(chunks[i], Concat(chunks[..i]));
      saved := hasher.Save();
      assert chunks[..i + 1][..i] == chunks[..i];
      i := i + 1;
    }
    assert chunks[..i] == chunks;
    var last := new CkptHash.Restore(saved);
    out := last.Fin(Concat(chunks));
  }
}
