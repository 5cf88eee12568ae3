/** The grid's arithmetic and the codec together: a chunk message is as long as the sizing assumed, and fits. */
module ChunkBudget {
  import opened Bytes
  import opened Wrappers
  import Codec = FileChunkCodec
  import Sizing = ChunkSizing

  /** A variable-length number takes `n` bytes or fewer exactly when it is below 128 to the power `n`. */
  lemma {:induction false} VarintLength(v: nat, n: nat)
    requires n > 0
    ensures |Codec.Varint(v)| <= n <==> v < Codec.Pow128(n)
    decreases n
  {
    if v >= 0x80 {
      if n > 1 {
        VarintLength(v / 0x80, n - 1);
      } else {
        assert Codec.Pow128(1) == 0x80 * Codec.Pow128(0);
      }
    } else {
      PowerGrows(n);
    }
  }

  lemma {:induction false} PowerGrows(n: nat)
    requires n > 0
    ensures Codec.Pow128(n) >= 0x80
  {
    if n > 1 { PowerGrows(n - 1); }
  }

  /** The header the sizing counts on is always larger than needed, by three bytes at most. */
  lemma HeaderIsEnough(m: Codec.Message)
    requires Codec.Encode(m).Ok?
    ensures
      var length := |Codec.Encode(m).value|;
      var assumed := Sizing.ChunkHeaderBytes(|m.transferId|) + |m.data|;
      assumed - 4 < length < assumed
  {
    hide Codec.Varint, Codec.Pow128;
    VarintLength(m.index, 3);
    VarintLength(m.run, 1);
    Powers();
  }

  lemma Powers()
    ensures Codec.Pow128(1) == 128 && Codec.Pow128(3) == 2097152
  {
    assert Codec.Pow128(2) == 0x80 * Codec.Pow128(1);
  }

  /**
    Every message of a transfer, its last short one included, fits one payload and one
    datagram whenever a single chunk does.
   */
  lemma RunMessagesFit(
      chunkSize: nat, payloadBudget: int, datagramBytes: int, m: Codec.Message)
    requires chunkSize > 0 && Codec.Encode(m).Ok?
    requires Sizing.RunFits(chunkSize, payloadBudget, datagramBytes, |m.transferId|, 1)
    requires var best := Sizing.ChooseRunLength(chunkSize, payloadBudget, datagramBytes, |m.transferId|);
             |m.data| <= best * chunkSize
    ensures |Codec.Encode(m).value| <= payloadBudget && 72 + |Codec.Encode(m).value| <= datagramBytes
  {
    hide Codec.Encode, Sizing.ChooseRunLength, Sizing.ChunkHeaderBytes;
    HeaderIsEnough(m);
    Sizing.RunLengthIsLargest(chunkSize, payloadBudget, datagramBytes, |m.transferId|, 1);
  }

  /** A fast link whose datagrams are large as well. */
  predicate Wide(x: Sizing.Input) {
    x.isHighBandwidth && 72 + Sizing.ChunkHeaderBytes(x.transferIdLength) + 1024 <= x.datagramBytes
  }

  /**
    The size a link suggests: above the smallest, a chunk fits one payload, and one datagram
    unless the link is wide; below the largest, one byte more would not have fitted, or a
    wide link has reached its sixteen kilobytes.
   */
  lemma SuggestedSizeIsLargest(x: Sizing.Input)
    ensures
      var size := Sizing.FirstSize(x);
      var message := Sizing.ChunkHeaderBytes(x.transferIdLength) + size;
      && 256 <= size <= 65536
      && (size > 256 ==> message <= x.payloadBudget)
      && (size > 256 && (!Wide(x) || size > 16384) ==> 72 + message <= x.datagramBytes)
      && (size < 65536 ==> message >= x.payloadBudget || 72 + message >= x.datagramBytes || (Wide(x) && size >= 16384))
      && (Wide(x) && size < 16384 ==> message >= x.payloadBudget)
  {
  }
}
