/** The chained whole-file hash, and what two equal hashes imply without assuming an injective hash. */
module FileHash {
  import opened Arithmetic
  import opened Bytes
  import opened Wrappers

  type Hash = seq<byte> -> seq<byte>

  const HASH_LENGTH: nat := 32
  const MAX_SAFE: nat := 0x1F_FFFF_FFFF_FFFF

  /** "airlink/file/v1" */
  const FILE_DOMAIN: seq<byte> := [97, 105, 114, 108, 105, 110, 107, 47, 102, 105, 108, 101, 47, 118, 49]

  ghost predicate FixedLength(h: Hash) {
    forall x :: |h(x)| == HASH_LENGTH
  }

  /** What is hashed, for a file cut into chunks of `chunkSize`. */
  datatype File = File(chunkSize: nat, content: seq<byte>)

  /** What the offer can carry: a safe integer, and a chunk size that survives its 32-bit field. */
  predicate Encodable(f: File) {
    |f.content| <= MAX_SAFE && 0 < f.chunkSize < TWO_32
  }

  function SeedPreimage(fileBytes: nat, chunkSize: nat): (p: seq<byte>)
    ensures |p| == 27
  {
    FILE_DOMAIN + BE64(fileBytes) + BE32(chunkSize)
  }

  /** The bytes from `offset` to the next grid line or the end of the file. */
  function ChunkAt(f: File, offset: nat): seq<byte>
    requires offset <= |f.content|
  {
    f.content[offset..Min(offset + f.chunkSize, |f.content|)]
  }

  /** The `k`-th chunk of the grid. */
  function Chunk(f: File, k: nat): seq<byte> {
    ChunkAt(f, Min(k * f.chunkSize, |f.content|))
  }

  /** The accumulator once everything before `k` grid lines has been folded in. */
  function Accumulated(h: Hash, f: File, k: nat): seq<byte>
    decreases k, 0
  {
    if k == 0 then h(SeedPreimage(|f.content|, f.chunkSize)) else h(Preimage(h, f, k - 1))
  }

  function Preimage(h: Hash, f: File, k: nat): seq<byte>
    decreases k, 1
  {
    Accumulated(h, f, k) + Chunk(f, k)
  }

  function Chunks(f: File): nat
    requires f.chunkSize > 0
  {
    (|f.content| + f.chunkSize - 1) / f.chunkSize
  }

  function FileHash(h: Hash, f: File): seq<byte>
    requires f.chunkSize > 0
  {
    Accumulated(h, f, Chunks(f))
  }

  // -- reading the file once -------------------------------------------------

  datatype ReadError = ShortRead(offset: nat, got: nat)

  /** One pass over the store; `read` may return fewer bytes than it was asked for. */
  method ComputeFileHash(h: Hash, read: (nat, nat) -> seq<byte>, fileBytes: nat, chunkSize: nat)
      returns (r: Result<seq<byte>, ReadError>)
    requires chunkSize > 0
    ensures r.Err? <==> exists k: nat :: k * chunkSize < fileBytes && ShortAt(read, fileBytes, chunkSize, k)
    ensures r.Err? ==>
      && r.error.offset < fileBytes
      && var wanted := Min(chunkSize, fileBytes - r.error.offset);
         r.error.got == |read(r.error.offset, wanted)| != wanted
    ensures forall f: File ::
      f.chunkSize == chunkSize && |f.content| == fileBytes && Serves(read, f) ==> r == Ok(FileHash(h, f))
  {
    hide Accumulated, ChunkAt, Chunks;
    var acc := h(SeedPreimage(fileBytes, chunkSize));
    var offset := 0;
    ghost var k: nat := 0;
    AccumulatedStarts(h, fileBytes, chunkSize);
    while offset < fileBytes
      invariant offset == k * chunkSize
      invariant forall j: nat :: j < k ==> !ShortAt(read, fileBytes, chunkSize, j)
      invariant k == 0 || (k - 1) * chunkSize < fileBytes
      invariant forall f: File ::
        f.chunkSize == chunkSize && |f.content| == fileBytes && Serves(read, f) ==> acc == Accumulated(h, f, k)
      decreases fileBytes - offset
    {
      var length := Min(chunkSize, fileBytes - offset);
      var data := read(offset, length);
      if |data| != length {
        assert ShortAt(read, fileBytes, chunkSize, k);
        forall f: File | f.chunkSize == chunkSize && |f.content| == fileBytes && Serves(read, f) ensures false {
          ServedInFull(read, f, k);
        }
        return Err(ShortRead(offset, |data|));
      }
      forall f: File | f.chunkSize == chunkSize && |f.content| == fileBytes && Serves(read, f)
        ensures h(acc + data) == Accumulated(h, f, k + 1)
      {
        FoldStep(h, read, f, k);
      }
      acc := h(acc + data);
      assert (k + 1) * chunkSize == offset + chunkSize;
      offset := offset + chunkSize;
      k := k + 1;
    }
    forall j: nat | j * chunkSize < fileBytes ensures !ShortAt(read, fileBytes, chunkSize, j) {
      StepsBelow(j, k, chunkSize, fileBytes);
    }
    forall f: File | f.chunkSize == chunkSize && |f.content| == fileBytes && Serves(read, f)
      ensures acc == FileHash(h, f)
    {
      ChunkCount(f, k);
    }
    return Ok(acc);
  }

  predicate ShortAt(read: (nat, nat) -> seq<byte>, fileBytes: nat, chunkSize: nat, k: nat) {
    k * chunkSize < fileBytes
    && |read(k * chunkSize, Min(chunkSize, fileBytes - k * chunkSize))| != Min(chunkSize, fileBytes - k * chunkSize)
  }

  /** The store holds `f`. */
  ghost predicate Serves(read: (nat, nat) -> seq<byte>, f: File) {
    forall offset: nat, length: nat :: offset + length <= |f.content|
        ==> read(offset, length) == f.content[offset..offset + length]
  }

  lemma AccumulatedStarts(h: Hash, fileBytes: nat, chunkSize: nat)
    ensures forall f: File ::
      f.chunkSize == chunkSize && |f.content| == fileBytes ==>
        Accumulated(h, f, 0) == h(SeedPreimage(fileBytes, chunkSize))
  {
  }

  lemma ServedInFull(read: (nat, nat) -> seq<byte>, f: File, k: nat)
    requires Serves(read, f)
    ensures !ShortAt(read, |f.content|, f.chunkSize, k)
  {
    var offset := k * f.chunkSize;
    if offset < |f.content| {
      var length := Min(f.chunkSize, |f.content| - offset);
      assert read(offset, length) == f.content[offset..offset + length];
    }
  }

  lemma FoldStep(h: Hash, read: (nat, nat) -> seq<byte>, f: File, k: nat)
    requires Serves(read, f) && k * f.chunkSize < |f.content|
    ensures
      var offset := k * f.chunkSize;
      Accumulated(h, f, k + 1) == h(Accumulated(h, f, k) + read(offset, Min(f.chunkSize, |f.content| - offset)))
  {
    var offset := k * f.chunkSize;
    assert read(offset, Min(f.chunkSize, |f.content| - offset)) == ChunkAt(f, offset);
  }

  lemma StepsBelow(j: nat, k: nat, chunkSize: nat, fileBytes: nat)
    requires j * chunkSize < fileBytes <= k * chunkSize
    ensures j < k
  {
    MulOrder(k, j, chunkSize);
  }

  /** The only multiple count between `n` and a whole chunk more. */
  lemma CeilingIs(n: nat, c: nat, k: nat)
    requires c > 0 && n <= k * c && (k == 0 || (k - 1) * c < n)
    ensures (n + c - 1) / c == k
  {
    var q := (n + c - 1) / c;
    assert n + c - 1 == q * c + (n + c - 1) % c;
    assert (q + 1) * c == q * c + c && (k - 1) * c == k * c - c;
    MulOrder(q + 1, k, c);
    MulOrder(k + 1, q, c);
    assert (k + 1) * c == k * c + c;
  }

  /** The grid has exactly as many chunks as the loop makes steps. */
  lemma ChunkCount(f: File, k: nat)
    requires f.chunkSize > 0 && |f.content| <= k * f.chunkSize && (k == 0 || (k - 1) * f.chunkSize < |f.content|)
    ensures Chunks(f) == k
  {
    CeilingIs(|f.content|, f.chunkSize, k);
  }

  // -- what equal hashes mean ------------------------------------------------

  ghost predicate Collide(h: Hash, x: seq<byte>, y: seq<byte>) {
    x != y && h(x) == h(y)
  }

  /** The same seed and the same first `k` chunks. */
  ghost predicate SameChain(f: File, g: File, k: nat) {
    && SeedPreimage(|f.content|, f.chunkSize) == SeedPreimage(|g.content|, g.chunkSize)
    && forall i: nat :: i < k ==> Chunk(f, i) == Chunk(g, i)
  }

  /** What is hashed last. */
  function Last(h: Hash, f: File, k: nat): (p: seq<byte>)
    ensures h(p) == Accumulated(h, f, k)
  {
    if k == 0 then SeedPreimage(|f.content|, f.chunkSize) else Preimage(h, f, k - 1)
  }

  /** Equal accumulators come from equal seeds and equal chunks, or from a collision on the way. */
  lemma {:induction false} ChainsAgree(h: Hash, f: File, g: File, k: nat, m: nat) returns (x: seq<byte>, y: seq<byte>)
    requires FixedLength(h) && Accumulated(h, f, k) == Accumulated(h, g, m)
    ensures Collide(h, x, y) || (k == m && SameChain(f, g, k))
    decreases k
  {
    hide Chunk, SeedPreimage;
    x, y := Last(h, f, k), Last(h, g, m);
    if x == y {
      SameDepth(h, f, g, k, m);
      if k > 0 {
        SameSum(Accumulated(h, f, k - 1), Chunk(f, k - 1), Accumulated(h, g, m - 1), Chunk(g, m - 1));
        x, y := ChainsAgree(h, f, g, k - 1, m - 1);
      }
    }
  }

  lemma LastLength(h: Hash, f: File, k: nat)
    requires FixedLength(h)
    ensures if k == 0 then |Last(h, f, k)| == 27 else |Last(h, f, k)| >= HASH_LENGTH
  {
    hide Accumulated;
    if k > 0 {
      assert |h(Last(h, f, k - 1))| == HASH_LENGTH;
    }
  }

  /** A seed is 27 bytes and everything else at least 32, so no seed is a later pre-image. */
  lemma SameDepth(h: Hash, f: File, g: File, k: nat, m: nat)
    requires FixedLength(h) && Last(h, f, k) == Last(h, g, m)
    ensures k == 0 <==> m == 0
  {
    hide Last;
    LastLength(h, f, k);
    LastLength(h, g, m);
  }

  lemma SameSum(a: seq<byte>, b: seq<byte>, c: seq<byte>, d: seq<byte>)
    requires |a| == |c| && a + b == c + d
    ensures a == c && b == d
  {
    assert (a + b)[..|a|] == a && (c + d)[..|a|] == c;
    assert (a + b)[|a|..] == b && (c + d)[|a|..] == d;
  }

  lemma SeedsAgree(m: nat, c: nat, n: nat, d: nat)
    requires m <= MAX_SAFE && n <= MAX_SAFE && c < TWO_32 && d < TWO_32
    requires SeedPreimage(m, c) == SeedPreimage(n, d)
    ensures m == n && c == d
  {
    hide BE32, BE64;
    SameSum(FILE_DOMAIN + BE64(m), BE32(c), FILE_DOMAIN + BE64(n), BE32(d));
    SameSum(FILE_DOMAIN, BE64(m), FILE_DOMAIN, BE64(n));
    BE64Injective(m, n);
    Word32OfBE32(c);
    Word32OfBE32(d);
  }

  /** Each byte sits in one chunk of the grid. */
  lemma ByteInChunk(f: File, p: nat) returns (i: nat, at: nat)
    requires f.chunkSize > 0 && p < |f.content|
    ensures i == p / f.chunkSize && at == p % f.chunkSize
    ensures i < Chunks(f) && at < |Chunk(f, i)| && Chunk(f, i)[at] == f.content[p]
  {
    var c := f.chunkSize;
    i, at := p / c, p % c;
    assert p == i * c + at;
    var q := Chunks(f);
    assert |f.content| + c - 1 == q * c + (|f.content| + c - 1) % c;
    MulOrder(q, i, c);
    assert Min(i * c, |f.content|) == i * c;
  }

  /** The chunks of the grid, put together, are the file. */
  lemma ChunksDetermineContent(f: File, g: File)
    requires f.chunkSize == g.chunkSize > 0 && |f.content| == |g.content|
    requires forall i: nat :: i < Chunks(f) ==> Chunk(f, i) == Chunk(g, i)
    ensures f.content == g.content
  {
    hide Chunk, Chunks;
    forall p | 0 <= p < |f.content| ensures f.content[p] == g.content[p] {
      var i, at := ByteInChunk(f, p);
      var j, there := ByteInChunk(g, p);
    }
  }

  /**
    The file hash binds size, grid and content: two files with the same hash are the same
    file cut the same way, or the chain exhibits two different inputs with one hash.
   */
  lemma HashBindsFile(h: Hash, f: File, g: File) returns (x: seq<byte>, y: seq<byte>)
    requires FixedLength(h) && Encodable(f) && Encodable(g)
    ensures FileHash(h, f) == FileHash(h, g) ==> f == g || Collide(h, x, y)
  {
    hide Chunk, SeedPreimage, Accumulated, Chunks;
    x, y := [], [];
    if FileHash(h, f) == FileHash(h, g) {
      x, y := ChainsAgree(h, f, g, Chunks(f), Chunks(g));
      if !Collide(h, x, y) {
        SeedsAgree(|f.content|, f.chunkSize, |g.content|, g.chunkSize);
        ChunksDetermineContent(f, g);
      }
    }
  }

  /**
    Above 32 bits the field truncates.  The grids of `c` and of `c` plus 2^32 share a hash
    for every content that fits one chunk of `c`, and for a longer one only if the hash
    itself collides.
   */
  lemma WideChunkSizesCollide(h: Hash, c: nat, content: seq<byte>) returns (x: seq<byte>, y: seq<byte>)
    requires FixedLength(h) && 0 < c < TWO_32
    ensures FileHash(h, File(c, content)) == FileHash(h, File(c + TWO_32, content))
      ==> |content| <= c || Collide(h, x, y)
    ensures |content| <= c ==> FileHash(h, File(c, content)) == FileHash(h, File(c + TWO_32, content))
  {
    var (f, g) := (File(c, content), File(c + TWO_32, content));
    x, y := [], [];
    if |content| <= c {
      ChunkCount(f, if content == [] then 0 else 1);
      ChunkCount(g, if content == [] then 0 else 1);
      TruncatesTo32(c);
      var seed := SeedPreimage(|content|, c);
      assert seed == SeedPreimage(|content|, c + TWO_32);
      assert Accumulated(h, f, 0) == Accumulated(h, g, 0) == h(seed);
      assert Chunk(f, 0) == content == Chunk(g, 0);
      assert Preimage(h, f, 0) == Preimage(h, g, 0);
      assert Accumulated(h, f, 1) == Accumulated(h, g, 1);
    } else if FileHash(h, f) == FileHash(h, g) {
      x, y := ChainsAgree(h, f, g, Chunks(f), Chunks(g));
      var i, at := ByteInChunk(f, 0);
      assert |Chunk(f, 0)| == c < |Chunk(g, 0)|;
    }
  }

  lemma TruncatesTo32(c: nat)
    ensures BE32(c + TWO_32) == BE32(c)
  {
    ShiftedTruncates(c, 0x100_0000, 0x100);
    ShiftedTruncates(c, 0x1_0000, 0x1_0000);
    ShiftedTruncates(c, 0x100, 0x100_0000);
    ShiftedTruncates(c, 1, TWO_32);
  }

  /** A byte of the low word does not see a carry out of it. */
  lemma ShiftedTruncates(c: nat, shift: nat, rest: nat)
    requires shift in {1, 0x100, 0x1_0000, 0x100_0000} && shift * rest == TWO_32
    ensures (c + TWO_32) / shift % 256 == c / shift % 256
  {
    assert (c + TWO_32) / shift == c / shift + rest;
  }
}
