/**
  How big a grid chunk is, how many ride in one message, and that runs cover the file.
  The size a link suggests doubles until the chunk count fits its limit; a run takes as
  many chunks as fit the budgets of a message, but never more than the run cap.
 */
module ChunkSizing {
  import opened Arithmetic
  import opened Wrappers

  const MIN_CHUNK_BYTES := 256
  const MAX_CHUNK_BYTES := 64 * 1024
  const MAX_CHUNKS := 0x2_0000
  const MAX_RUN_CHUNKS := 64
  const CHUNK_DIGEST_BYTES := 8
  const DATAGRAM_FRAMING_OVERHEAD := 72

  datatype Input = Input(
    payloadBudget: int, datagramBytes: int, isHighBandwidth: bool, fileBytes: int, transferIdLength: nat)

  datatype TooManyChunks = TooManyChunks(fileBytes: int)

  function Clamp(value: int, low: int, high: int): int {
    Min(high, Max(low, value))
  }

  function ChunkHeaderBytes(transferIdLength: nat): nat {
    1 + transferIdLength + 3 + 2 + CHUNK_DIGEST_BYTES
  }

  function TotalChunks(fileBytes: int, chunkSize: int): nat
    requires chunkSize > 0
  {
    if fileBytes <= 0 then 0 else (fileBytes + chunkSize - 1) / chunkSize
  }

  /** The size a link alone would suggest. */
  function FirstSize(x: Input): (size: int)
    ensures MIN_CHUNK_BYTES <= size <= MAX_CHUNK_BYTES
  {
    var header := ChunkHeaderBytes(x.transferIdLength);
    var perDatagram := Max(0, x.datagramBytes - DATAGRAM_FRAMING_OVERHEAD - header);
    var perMessage := Max(0, x.payloadBudget - header);
    var size := Clamp(perDatagram, MIN_CHUNK_BYTES, MAX_CHUNK_BYTES);
    var wide :=
      if x.isHighBandwidth && perDatagram >= 1024 then Clamp(Min(perMessage, 16 * 1024), size, MAX_CHUNK_BYTES)
      else size;
    Min(wide, Max(MIN_CHUNK_BYTES, perMessage))
  }

  /** `size` doubled `k` times, as far as the largest chunk allows. */
  function Doubled(size: nat, k: nat): nat {
    if k == 0 then size else Min(Doubled(size, k - 1) * 2, MAX_CHUNK_BYTES)
  }

  predicate Fits(fileBytes: int, size: int)
    requires size > 0
  {
    TotalChunks(fileBytes, size) <= MAX_CHUNKS
  }

  /** A count of chunks is enough exactly when that many chunks reach the end of the file. */
  lemma EnoughChunks(fileBytes: int, size: int, n: nat)
    requires size > 0
    ensures TotalChunks(fileBytes, size) <= n <==> fileBytes <= n * size
  {
    if fileBytes > 0 {
      var q := TotalChunks(fileBytes, size);
      assert fileBytes + size - 1 == q * size + (fileBytes + size - 1) % size;
      assert (n + 1) * size == n * size + size;
      MulOrder(q, n, size);
      MulOrder(n + 1, q, size);
    }
  }

  /**
    The grid size: the first doubling of the link's size whose bitmap is small enough, or
    an error exactly when not even the largest chunks are few enough.
   */
  method ChooseChunkSize(x: Input) returns (r: Result<nat, TooManyChunks>)
    ensures r.Err? <==> !Fits(x.fileBytes, MAX_CHUNK_BYTES)
    ensures r.Ok? ==>
      && MIN_CHUNK_BYTES <= r.value <= MAX_CHUNK_BYTES && Fits(x.fileBytes, r.value)
      && (exists k: nat :: IsFirstFit(x, k) && r.value == Doubled(FirstSize(x), k))
  {
    hide TotalChunks;
    var header := ChunkHeaderBytes(x.transferIdLength);
    var perDatagram := Max(0, x.datagramBytes - DATAGRAM_FRAMING_OVERHEAD - header);
    var perMessage := Max(0, x.payloadBudget - header);
    var size := Clamp(perDatagram, MIN_CHUNK_BYTES, MAX_CHUNK_BYTES);
    if x.isHighBandwidth && perDatagram >= 1024 {
      size := Clamp(Min(perMessage, 16 * 1024), size, MAX_CHUNK_BYTES);
    }
    size := Min(size, Max(MIN_CHUNK_BYTES, perMessage));
    ghost var k: nat := 0;
    while size < MAX_CHUNK_BYTES && TotalChunks(x.fileBytes, size) > MAX_CHUNKS
      invariant MIN_CHUNK_BYTES <= size <= MAX_CHUNK_BYTES && size == Doubled(FirstSize(x), k)
      invariant forall j: nat :: j < k ==> Passed(x, j)
      decreases MAX_CHUNK_BYTES - size
    {
      assert Passed(x, k);
      size := Min(size * 2, MAX_CHUNK_BYTES);
      k := k + 1;
    }
    EnoughChunks(x.fileBytes, size, MAX_CHUNKS);
    EnoughChunks(x.fileBytes, MAX_CHUNK_BYTES, MAX_CHUNKS);
    if TotalChunks(x.fileBytes, size) > MAX_CHUNKS { return Err(TooManyChunks(x.fileBytes)); }
    assert IsFirstFit(x, k);
    return Ok(size);
  }

  /** Doubling `j` was too fine a grid. */
  ghost predicate Passed(x: Input, j: nat) {
    var size := Doubled(FirstSize(x), j);
    0 < size < MAX_CHUNK_BYTES && !Fits(x.fileBytes, size)
  }

  /** No fewer doublings would do. */
  ghost predicate IsFirstFit(x: Input, k: nat) {
    && Doubled(FirstSize(x), k) > 0 && Fits(x.fileBytes, Doubled(FirstSize(x), k))
    && forall j: nat :: j < k ==> Passed(x, j)
  }

  /** Does a run fit one message and one datagram? */
  predicate RunFits(chunkSize: nat, payloadBudget: int, datagramBytes: int, transferIdLength: nat, run: nat) {
    var header := ChunkHeaderBytes(transferIdLength);
    && header + run * chunkSize <= payloadBudget
    && DATAGRAM_FRAMING_OVERHEAD + header + run * chunkSize <= datagramBytes
  }

  function ChooseRunLength(chunkSize: nat, payloadBudget: int, datagramBytes: int, transferIdLength: nat): nat
    requires chunkSize > 0
  {
    var header := ChunkHeaderBytes(transferIdLength);
    var usable := Min(payloadBudget - header, datagramBytes - DATAGRAM_FRAMING_OVERHEAD - header);
    if usable < chunkSize then 1 else Clamp(usable / chunkSize, 1, MAX_RUN_CHUNKS)
  }

  /** The largest run that fits both budgets and the cap; a single chunk is sent even when it does not fit. */
  lemma RunLengthIsLargest(chunkSize: nat, payloadBudget: int, datagramBytes: int, transferIdLength: nat, run: nat)
    requires chunkSize > 0
    ensures
      var best := ChooseRunLength(chunkSize, payloadBudget, datagramBytes, transferIdLength);
      && 1 <= best <= MAX_RUN_CHUNKS
      && (1 <= run <= MAX_RUN_CHUNKS && RunFits(chunkSize, payloadBudget, datagramBytes, transferIdLength, run)
          ==> run <= best)
      && (best > 1 ==> RunFits(chunkSize, payloadBudget, datagramBytes, transferIdLength, best))
  {
    var header := ChunkHeaderBytes(transferIdLength);
    var usable := Min(payloadBudget - header, datagramBytes - DATAGRAM_FRAMING_OVERHEAD - header);
    var best := ChooseRunLength(chunkSize, payloadBudget, datagramBytes, transferIdLength);
    MulOrder(1, run, chunkSize);
    if usable >= chunkSize {
      var q := usable / chunkSize;
      assert usable == q * chunkSize + usable % chunkSize;
      assert (q + 1) * chunkSize == q * chunkSize + chunkSize;
      MulOrder(q + 1, run, chunkSize);
      MulOrder(best, q, chunkSize);
      MulOrder(q, 0, chunkSize);
    }
  }

  function RunByteLength(fileBytes: int, chunkSize: nat, index: nat, run: nat): int {
    Max(0, Min(fileBytes, (index + run) * chunkSize) - index * chunkSize)
  }

  function Sum(runs: seq<nat>): nat {
    if runs == [] then 0 else runs[0] + Sum(runs[1..])
  }

  /** Bytes carried by consecutive runs starting at chunk `index`. */
  function Carried(fileBytes: int, chunkSize: nat, index: nat, runs: seq<nat>): int
    decreases |runs|
  {
    if runs == [] then 0
    else RunByteLength(fileBytes, chunkSize, index, runs[0]) + Carried(fileBytes, chunkSize, index + runs[0], runs[1..])
  }

  lemma {:induction false} CarriedFrom(fileBytes: int, chunkSize: nat, index: nat, runs: seq<nat>)
    ensures Carried(fileBytes, chunkSize, index, runs)
      == Max(0, Min(fileBytes, (index + Sum(runs)) * chunkSize) - index * chunkSize)
    decreases |runs|
  {
    if runs != [] {
      CarriedFrom(fileBytes, chunkSize, index + runs[0], runs[1..]);
      MulOrder(index, index + runs[0], chunkSize);
      MulOrder(index + runs[0], index + runs[0] + Sum(runs[1..]), chunkSize);
    }
  }

  /** However the grid is cut into runs, their bytes add up to the file. */
  lemma RunsCoverFile(fileBytes: nat, chunkSize: nat, runs: seq<nat>)
    requires chunkSize > 0 && Sum(runs) == TotalChunks(fileBytes, chunkSize)
    ensures Carried(fileBytes, chunkSize, 0, runs) == fileBytes
  {
    CarriedFrom(fileBytes, chunkSize, 0, runs);
    EnoughChunks(fileBytes, chunkSize, Sum(runs));
  }
}
