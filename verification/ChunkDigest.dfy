/** The digest that each chunk message carries, and what it ties the bytes to. */
module ChunkDigest {
  import opened Bytes
  import opened FileChunkCodec
  import opened Wrappers

  type Hash = seq<byte> -> seq<byte>

  /** "airlink/file-chunk/v1" */
  const CHUNK_DOMAIN: seq<byte> :=
    [97, 105, 114, 108, 105, 110, 107, 47, 102, 105, 108, 101, 45, 99, 104, 117, 110, 107, 47, 118, 49]

  /** Bytes and the place they claim: a transfer, an index on its grid, and how many chunks the run has. */
  datatype Placed = Placed(transferId: seq<byte>, index: nat, run: nat, data: seq<byte>)

  /** The writer throws on a number that is not a safe integer. */
  predicate Writable(p: Placed) {
    |p.transferId| <= MAX_SAFE && p.index <= MAX_SAFE && p.run <= MAX_SAFE && |p.data| <= MAX_SAFE
  }

  function Preimage(p: Placed): seq<byte> {
    CHUNK_DOMAIN
    + (Varint(|p.transferId|) + (p.transferId + (Varint(p.index) + (Varint(p.run) + (Varint(|p.data|) + p.data)))))
  }

  function Truncated(digest: seq<byte>): seq<byte> {
    if |digest| < CHUNK_DIGEST_BYTES then digest else digest[..CHUNK_DIGEST_BYTES]
  }

  function Digest(h: Hash, p: Placed): Option<seq<byte>> {
    if Writable(p) then Some(Truncated(h(Preimage(p)))) else None
  }

  /** Two different inputs that the truncated hash does not tell apart. */
  ghost predicate TruncatedCollision(h: Hash, x: seq<byte>, y: seq<byte>) {
    x != y && Truncated(h(x)) == Truncated(h(y))
  }

  /** A varint in front says what it is and where it ends. */
  lemma VarintFirst(a: nat, x: seq<byte>, b: nat, y: seq<byte>)
    requires a <= MAX_SAFE && b <= MAX_SAFE && Varint(a) + x == Varint(b) + y
    ensures a == b && x == y
  {
    hide Varint, ReadVarint;
    VarintRoundTrip(a, x);
    VarintRoundTrip(b, y);
    SameRest(Varint(a), x, Varint(b), y);
  }

  lemma SameRest(a: seq<byte>, x: seq<byte>, b: seq<byte>, y: seq<byte>)
    requires |a| == |b| && a + x == b + y
    ensures a == b && x == y
  {
    assert (a + x)[..|a|] == a && (b + y)[..|b|] == b;
    assert (a + x)[|a|..] == x && (b + y)[|b|..] == y;
  }

  /** Every field can be read back out of what is hashed. */
  lemma PreimageInjective(p: Placed, q: Placed)
    requires Writable(p) && Writable(q) && Preimage(p) == Preimage(q)
    ensures p == q
  {
    hide Varint;
    var afterRun := (x: Placed) => Varint(|x.data|) + x.data;
    var afterIndex := (x: Placed) => Varint(x.run) + afterRun(x);
    var afterId := (x: Placed) => Varint(x.index) + afterIndex(x);
    SameRest(CHUNK_DOMAIN, Varint(|p.transferId|) + (p.transferId + afterId(p)),
             CHUNK_DOMAIN, Varint(|q.transferId|) + (q.transferId + afterId(q)));
    VarintFirst(|p.transferId|, p.transferId + afterId(p), |q.transferId|, q.transferId + afterId(q));
    SameRest(p.transferId, afterId(p), q.transferId, afterId(q));
    VarintFirst(p.index, afterIndex(p), q.index, afterIndex(q));
    VarintFirst(p.run, afterRun(p), q.run, afterRun(q));
    VarintFirst(|p.data|, p.data, |q.data|, q.data);
  }

  /**
    A digest that checks out at one place does not check out at another: the bytes, the
    transfer, the index and the run are the same, or two inputs are exhibited that the
    truncated hash cannot tell apart.
   */
  lemma DigestBindsPlace(h: Hash, p: Placed, q: Placed) returns (x: seq<byte>, y: seq<byte>)
    requires Writable(p)
    ensures Digest(h, p) == Digest(h, q) ==> p == q || TruncatedCollision(h, x, y)
  {
    hide Preimage, Truncated;
    x, y := Preimage(p), Preimage(q);
    if Digest(h, p) == Digest(h, q) && x == y { PreimageInjective(p, q); }
  }
}
