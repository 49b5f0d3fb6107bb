/** One normalized pack: one multipart upload in uniform parts, a running hash over
    the uploaded prefix, and a checkpoint that describes exactly that prefix. */
module PackWriting {
  import opened Repository
  import opened Hashing

  /** The letters "PACK". */
  const PACK := 0x5041434B

  /** The big-endian word at a position, read back as a number. */
  function WordAt(b: seq<Byte>, i: nat): nat
    requires i + 4 <= |b|
  {
    (b[i] as nat) * 0x100_0000 + (b[i + 1] as nat) * 0x1_0000 + (b[i + 2] as nat) * 0x100 + (b[i + 3] as nat)
  }

  /** A reader finds the letters, version 2 and the count, modulo 32 bits. */
  ghost predicate Announces(b: seq<Byte>, total: nat) {
    |b| >= 12 && WordAt(b, 0) == 0x5041434B && WordAt(b, 4) == 2 && WordAt(b, 8) == total % 0x1_0000_0000
  }

  /** "PACK", version 2, the entry count: 12 bytes. */
  function Header(total: nat): (r: seq<Byte>)
    ensures |r| == 12
  {
    BigEndian32(PACK) + BigEndian32(2) + BigEndian32(total)
  }

  function BigEndian32(n: nat): (r: seq<Byte>)
    ensures |r| == 4
  {
    seq(4, i requires 0 <= i < 4 => Digit(n, 3 - i))
  }

  lemma NextByte(b: Byte)
    requires b != 255
    ensures (b + 1) as nat == b as nat + 1
  {
  }

  lemma ThereAndBack(b: Byte)
    ensures b as nat as Byte == b
  {
  }

  lemma {:induction false} ByteOf(v: nat)
    requires v < 256
    ensures v as Byte as nat == v
  {
    if v > 0 {
      ByteOf(v - 1);
      var b := (v - 1) as Byte;
      NextByte(b);
      ThereAndBack(b + 1);
    }
  }

  lemma LowDigit(n: nat)
    ensures Digit(n, 0) as nat == n % 256
  {
    ByteOf(n % 256);
  }

  lemma Digits32(n: nat)
    ensures var b := BigEndian32(n);
      && b[0] as nat == n / 256 / 256 / 256 % 256 && b[1] as nat == n / 256 / 256 % 256
      && b[2] as nat == n / 256 % 256 && b[3] as nat == n % 256
  {
    var a, b, c := n / 256, n / 256 / 256, n / 256 / 256 / 256;
    LowDigit(n);
    LowDigit(a);
    LowDigit(b);
    LowDigit(c);
    assert Digit(n, 1) == Digit(a, 0);
    assert Digit(n, 2) == Digit(a, 1) == Digit(b, 0);
    assert Digit(n, 3) == Digit(a, 2) == Digit(b, 1) == Digit(c, 0);
  }

  lemma Positional(n: nat)
    ensures (n / 256 / 256 / 256 % 256) * 0x100_0000 + (n / 256 / 256 % 256) * 0x1_0000 + (n / 256 % 256) * 0x100
      + n % 256 == n % 0x1_0000_0000
  {
    var a, b, c := n / 256, n / 256 / 256, n / 256 / 256 / 256;
    assert n == a * 256 + n % 256 && a == b * 256 + a % 256 && b == c * 256 + b % 256;
    assert n == (c / 256) * 0x1_0000_0000 + (c % 256) * 0x100_0000 + (b % 256) * 0x1_0000 + (a % 256) * 0x100 + n % 256;
  }

  lemma WordOf(n: nat)
    ensures WordAt(BigEndian32(n), 0) == n % 0x1_0000_0000
  {
    hide BigEndian32;
    Digits32(n);
    Positional(n);
  }

  lemma WordsOf(x: nat, y: nat, z: nat)
    ensures var r := BigEndian32(x) + BigEndian32(y) + BigEndian32(z);
      && WordAt(r, 0) == x % 0x1_0000_0000 && WordAt(r, 4) == y % 0x1_0000_0000 && WordAt(r, 8) == z % 0x1_0000_0000
  {
    hide BigEndian32;
    WordOf(x);
    WordOf(y);
    WordOf(z);
  }

  lemma HeaderReads(total: nat)
    ensures Announces(Header(total), total)
  {
    hide BigEndian32, WordAt;
    WordsOf(PACK, 2, total);
  }

  lemma WordKept(a: seq<Byte>, b: seq<Byte>, i: nat)
    requires a <= b && i + 4 <= |a|
    ensures WordAt(a, i) == WordAt(b, i)
  {
    assert b[i..i + 4] == a[i..i + 4];
    assert forall j :: i <= j < i + 4 ==> a[j] == b[j];
  }

  /** The header is read from any pack that starts with it. */
  lemma AnnouncesKept(a: seq<Byte>, b: seq<Byte>, total: nat)
    requires Announces(a, total) && a <= b
    ensures Announces(b, total)
  {
    hide WordAt;
    WordKept(a, b, 0);
    WordKept(a, b, 4);
    WordKept(a, b, 8);
  }

  /** The stretch of the pack its commits lie in: the first one's start, the last one's end. */
  datatype Bounds = Bounds(lo: nat, hi: nat)

  const MAX64 := 0xFFFF_FFFF_FFFF_FFFF

  const NoCommits := Bounds(MAX64, 0)

  function Min(a: nat, b: nat): nat {
    if a < b then a else b
  }

  function Max(a: nat, b: nat): nat {
    if a < b then b else a
  }

  datatype Ckpt = Ckpt(pos: nat, hash: HashState, count: nat, expected: nat, commits: Bounds)

  ghost predicate Uniform(parts: seq<seq<Byte>>, size: nat) {
    forall i :: 0 <= i < |parts| ==> |parts[i]| == size
  }

  lemma {:induction false} UniformLength(parts: seq<seq<Byte>>, size: nat)
    requires Uniform(parts, size)
    ensures |Concat(parts)| == |parts| * size
  {
    if parts != [] {
      var init := parts[..|parts| - 1];
      UniformLength(init, size);
      assert |Concat(parts)| == |init| * size + size;
    }
  }

  lemma ConcatSnoc(parts: seq<seq<Byte>>, p: seq<Byte>)
    ensures Concat(parts + [p]) == Concat(parts) + p
  {
    assert (parts + [p])[..|parts + [p]| - 1] == parts;
  }

  method NewHasher(alg: Alg) returns (hs: HashState)
    ensures hs.alg == alg && Absorbed(hs, [])
  {
    var c := new CkptHash(alg);
    hs := c.Save();
  }

  method Absorb(hs: HashState, d: seq<Byte>, ghost m: seq<Byte>) returns (r: HashState)
    requires Absorbed(hs, m)
    ensures Absorbed(r, m + d) && r.alg == hs.alg
  {
    var c := new CkptHash.Restore(hs);
    c.Update(d, m);
    r := c.Save();
  }

  class PackWriter {
    const partSize: nat
    const expected: nat
    var part: seq<Byte>
    var parts: seq<seq<Byte>>
    var offset: nat
    var count: nat
    var hash: HashState
    var commits: Bounds

    /** The uploaded prefix, and everything appended so far. */
    ghost var durable: seq<Byte>
    ghost var contents: seq<Byte>

    ghost predicate Valid()
      reads this
    {
      && partSize > 0
      && Uniform(parts, partSize)
      && durable == Concat(parts) && contents == durable + part
      && Absorbed(hash, durable)
      && offset == |contents|
    }

    /** A new upload: only the header is buffered. */
    constructor Create(expected: nat, alg: Alg, partSize: nat)
      requires partSize > 0
      ensures Valid() && contents == Header(expected) && durable == [] && parts == [] && count == 0
      ensures commits == NoCommits && Announces(contents, expected)
      ensures this.partSize == partSize && this.expected == expected && hash.alg == alg
    {
      hide Absorbed, Header, Announces;
      HeaderReads(expected);
      var hs := NewHasher(alg);
      this.partSize, this.expected := partSize, expected;
      part, parts, offset, count, hash, commits := Header(expected), [], 12, 0, hs, NoCommits;
      durable, contents := [], Header(expected);
    }

    /** Rebind to the upload and resume at a checkpoint; with nothing uploaded the
        header was only buffered and is emitted again. */
    constructor Resume(st: Ckpt, parts: seq<seq<Byte>>, partSize: nat)
      requires partSize > 0 && Uniform(parts, partSize) && Absorbed(st.hash, Concat(parts)) && st.pos == |Concat(parts)|
      ensures Valid() && durable == Concat(parts) && this.parts == parts && count == st.count
      ensures contents == if st.pos == 0 then Header(st.expected) else Concat(parts)
      ensures st.pos == 0 ==> Announces(contents, st.expected)
      ensures this.partSize == partSize && this.expected == st.expected && hash == st.hash && commits == st.commits
    {
      hide Absorbed, Header, Announces;
      HeaderReads(st.expected);
      this.partSize, this.expected := partSize, st.expected;
      this.parts, count, hash, commits := parts, st.count, st.hash, st.commits;
      part := if st.pos == 0 then Header(st.expected) else [];
      offset := if st.pos == 0 then 12 else st.pos;
      durable, contents := Concat(parts), if st.pos == 0 then Header(st.expected) else Concat(parts);
    }

    /** Load a saved tail in place of what is buffered, with the entries it completed. */
    method ResumeTail(bytes: seq<Byte>, extra: nat, more: Bounds)
      requires Valid()
      modifies this`part, this`offset, this`count, this`commits, this`contents
      ensures Valid() && part == bytes && count == old(count) + extra
      ensures commits == Bounds(Min(old(commits.lo), more.lo), Max(old(commits.hi), more.hi))
    {
      offset := offset - |part| + |bytes|;
      part := bytes;
      count := count + extra;
      commits := Bounds(Min(commits.lo, more.lo), Max(commits.hi, more.hi));
      contents := durable + bytes;
    }

    method RawExtend(bytes: seq<Byte>)
      requires Valid()
      modifies this`part, this`offset, this`contents
      ensures Valid() && contents == old(contents) + bytes
    {
      hide Absorbed;
      part := part + bytes;
      offset := offset + |bytes|;
      contents := contents + bytes;
    }

    /** The bounds after an entry at `start` that ends at the offset. */
    function Past(commit: bool, start: nat, end: nat): Bounds
      reads this`commits
    {
      if commit then Bounds(Min(commits.lo, start), end) else commits
    }

    /** Seal an entry that started at `start`. */
    method RawEntryDone(commit: bool, start: nat) returns (len: nat)
      requires Valid() && start <= offset
      modifies this`count, this`commits
      ensures Valid() && count == old(count) + 1 && len == offset - start
      ensures commits == old(Past(commit, start, offset))
    {
      len := offset - start;
      commits := Past(commit, start, offset);
      count := count + 1;
    }

    method AppendStored(commit: bool, entry: seq<Byte>) returns (start: nat)
      requires Valid()
      modifies this`part, this`offset, this`count, this`commits, this`contents
      ensures Valid() && contents == old(contents) + entry
      ensures start == old(offset) && count == old(count) + 1
      ensures commits == old(Past(commit, offset, offset + |entry|))
    {
      hide Absorbed;
      start := offset;
      part := part + entry;
      commits := Past(commit, start, offset + |entry|);
      offset := offset + |entry|;
      contents := contents + entry;
      count := count + 1;
    }

    function Snapshot(): Ckpt
      requires |part| <= offset
      reads this
    {
      Ckpt(offset - |part|, hash, count, expected, commits)
    }

    /** Upload the oldest full part, if there is one. */
    method Checkpoint() returns (full: bool)
      requires Valid()
      modifies this`part, this`parts, this`hash, this`durable
      ensures Valid() && full == (old(|part|) >= partSize)
      ensures hash.alg == old(hash.alg)
      ensures if full then |part| == old(|part|) - partSize && |durable| == old(|durable|) + partSize
              else part == old(part) && parts == old(parts) && hash == old(hash)
    {
      hide Absorbed;
      full := |part| >= partSize;
      if full {
        var chunk, rest := part[..partSize], part[partSize..];
        ConcatSnoc(parts, chunk);
        hash := Absorb(hash, chunk, durable);
        assert durable + part == (durable + chunk) + rest;
        parts, part, durable := parts + [chunk], rest, durable + chunk;
      }
    }

    /** Trailer and last part: the completed object, or nothing if entries are missing. */
    method Finish() returns (pack: Option<seq<Byte>>, bounds: Bounds)
      requires Valid()
      ensures (pack.Some? <==> count == expected) && bounds == commits
      ensures pack.Some? ==> pack.value == contents + Digest(hash.alg, contents)
    {
      hide Absorbed;
      bounds := commits;
      if count != expected { return None, bounds; }
      var c := new CkptHash.Restore(hash);
      c.Update(part, durable);
      var trailer := c.Fin(contents);
      pack := Some(Contents0(parts, part) + trailer);
    }
  }

  /** `complete`: R2 concatenates the parts and the last piece. */
  function Contents0(parts: seq<seq<Byte>>, part: seq<Byte>): seq<Byte> {
    Concat(parts) + part
  }
}
